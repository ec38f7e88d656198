/**
 What a valid world is, spelled out entry by entry: no reference dangles, every key says what
 it stands for, and every reserved event has its fields.
 */
module WorldLaws {
  import opened Common
  import opened Text
  import opened Json
  import opened QuestGraph
  import opened Model
  import opened HostOps
  import opened Execution
  import opened Receipts

  /** 32 bytes in hex, of either letter case. */
  ghost predicate HexOf32(s: string) {
    |s| == 64 && forall i :: 0 <= i < |s| ==> s[i] in "0123456789abcdefABCDEF"
  }

  ghost predicate AccountStands(w: World, name: string)
    requires name in w.accounts
  {
    && name != "" && w.accounts[name].name == name
    && (w.accounts[name].publicKey.Some? ==> HexOf32(w.accounts[name].publicKey.value))
  }

  ghost predicate ContractStands(w: World, key: string, blake3: string -> string)
    requires key in w.contracts
  {
    var c := w.contracts[key];
    && c.name != "" && c.version >= 1
    && key == (if c.version == 1 then c.name else c.name + "@" + Decimal(c.version))
    && c.sourceHash == blake3(c.source)
  }

  ghost predicate Exists(w: World, id: nat, kind: Kind) {
    id in w.entities && w.entities[id].kind == kind
  }

  /** A zone is nowhere, an actor in a zone if anywhere, an item in a zone or with an actor. */
  ghost predicate EntityStands(w: World, id: nat)
    requires id in w.entities
  {
    var e := w.entities[id];
    && e.id == id && id < w.nextEntityId
    && e.owner in w.accounts
    && (e.contract.Some? ==> e.contract.value in w.contracts)
    && (e.location.Some? ==> e.kind != Zone)
    && (e.location.Some? && e.kind == Actor ==> Exists(w, e.location.value, Zone))
    && (e.location.Some? && e.kind == Item ==>
        Exists(w, e.location.value, Zone) || Exists(w, e.location.value, Actor))
  }

  ghost predicate ProgressStands(w: World, key: string)
    requires key in w.progress
  {
    var p := w.progress[key];
    key == Decimal(p.actorId) + ":" + p.questId && Exists(w, p.actorId, Actor) && p.questId in w.quests
  }

  ghost predicate ReceiptStands(w: World, id: string)
    requires id in w.receipts
  {
    var r := w.receipts[id];
    r.txId == id && r.from in w.accounts && HexOf32(id) && HexOf32(r.stateRoot)
  }

  ghost predicate QuestStands(w: World, key: string)
    requires key in w.quests
  {
    var q := w.quests[key];
    && q.id == key && key != "" && Exists(w, q.giver, Actor)
    && (forall p :: p in q.prerequisites ==> p in w.quests && p != key)
    && (forall i, j :: 0 <= i < j < |q.prerequisites| ==> q.prerequisites[i] != q.prerequisites[j])
  }

  /** Each actor's inventory lists once exactly the items that are with it. */
  ghost predicate InventoriesStand(w: World) {
    && (forall o :: o in w.inventories ==> Exists(w, o, Actor))
    && (forall o, i, j :: o in w.inventories && 0 <= i < j < |w.inventories[o]| ==>
      w.inventories[o][i] != w.inventories[o][j])
    && (forall o: nat, item: nat {:trigger Holds(w.inventories, o, item)} :: Exists(w, o, Actor) ==>
      (Holds(w.inventories, o, item) <==> Exists(w, item, Item) && w.entities[item].location == Some(o)))
  }

  /** The string under a key of an object. */
  ghost predicate Says(data: Json, key: string, s: string) {
    data.Obj? && key in data.fields && data.fields[key] == Str(s)
  }

  /** The fields that each reserved kind of event must have. */
  ghost predicate EventStands(w: World, e: Event) {
    && 0 < e.id < w.nextEventId && e.head <= w.head && e.kind != ""
    && (e.kind == "entity_changed" ==>
      && e.entityId.Some?
      && (Says(e.data, "change", "created") || Says(e.data, "change", "updated") || Says(e.data, "change", "deleted")))
    && (e.kind == "quest_progress_changed" ==>
      && e.entityId.Some?
      && (exists quest :: quest != "" && Says(e.data, "quest_id", quest))
      && (Says(e.data, "status", "accepted") || Says(e.data, "status", "completed")))
    && (e.kind == "command_executed" ==>
      e.entityId.Some? && exists action :: action != "" && Says(e.data, "action", action))
    && (e.kind == "transaction_executed" ==> exists id :: TellsReceipt(w, e, id))
  }

  ghost predicate TellsReceipt(w: World, e: Event, id: string) {
    && Says(e.data, "tx_id", id) && id in w.receipts && Says(e.data, "from", w.receipts[id].from)
    && "nonce" in e.data.fields && e.data.fields["nonce"] == Int(w.receipts[id].nonce)
    && w.receipts[id].nonce < 0x1_0000_0000_0000_0000
  }

  /** Ids rise, and no transaction has two events. */
  ghost predicate LogStands(w: World) {
    && (forall i :: 0 <= i < |w.events| ==> EventStands(w, w.events[i]))
    && (forall i, j :: 0 <= i < j < |w.events| ==> w.events[i].id < w.events[j].id)
    && (forall i, j, id :: 0 <= i < j < |w.events| ==> !BothTell(w.events[i], w.events[j], id))
  }

  /** Two events of one transaction. */
  ghost predicate BothTell(a: Event, b: Event, id: string) {
    a.kind == b.kind == "transaction_executed" && Says(a.data, "tx_id", id) && Says(b.data, "tx_id", id)
  }

  lemma HexAgrees(s: string)
    ensures IsHex32(s) <==> HexOf32(s)
  {
    if |s| == 64 {
      forall i | 0 <= i < |s|
        ensures IsHexDigit(s[i]) <==> s[i] in "0123456789abcdefABCDEF"
      {
        HexCharacter(s[i]);
      }
    }
  }

  lemma HexCharacter(c: char)
    ensures IsHexDigit(c) <==> c in "0123456789abcdefABCDEF"
  {
    var h := "0123456789abcdefABCDEF";
    if '0' <= c <= '9' {
      assert h[c as int - 48] == c;
    } else if 'a' <= c <= 'f' {
      assert h[c as int - 87] == c;
    } else if 'A' <= c <= 'F' {
      assert h[c as int - 49] == c;
    }
  }

  lemma AccountsStand(w: World)
    ensures AccountsOk(w.accounts) <==> forall name :: name in w.accounts ==> AccountStands(w, name)
  {
    hide IsHex32, HexOf32;
    forall name | name in w.accounts && w.accounts[name].publicKey.Some?
      ensures IsHex32(w.accounts[name].publicKey.value) <==> HexOf32(w.accounts[name].publicKey.value)
    {
      HexAgrees(w.accounts[name].publicKey.value);
    }
    if forall name :: name in w.accounts ==> AccountStands(w, name) {
      forall k | k in w.accounts
        ensures k == w.accounts[k].name && k != ""
        ensures w.accounts[k].publicKey.Some? ==> IsHex32(w.accounts[k].publicKey.value)
      {
        assert AccountStands(w, k);
      }
    }
  }

  lemma ContractsStand(w: World, blake3: string -> string)
    ensures ContractsOk(w.contracts, blake3) <==> forall key :: key in w.contracts ==> ContractStands(w, key, blake3)
  {
    hide Decimal;
    if forall key :: key in w.contracts ==> ContractStands(w, key, blake3) {
      forall k | k in w.contracts
        ensures var c := w.contracts[k];
          c.name != "" && c.version != 0 && k == ContractKey(c.name, c.version) && c.sourceHash == blake3(c.source)
      {
        assert ContractStands(w, k, blake3);
      }
    }
  }

  lemma EntitiesStand(w: World)
    ensures EntitiesOk(w.accounts, w.contracts, w.entities, w.nextEntityId) && LocationsOk(w.entities) <==>
      0 < w.nextEntityId && forall id :: id in w.entities ==> EntityStands(w, id)
  {
    forall id | id in w.entities
      ensures EntityStands(w, id) <==>
        && id == w.entities[id].id && id < w.nextEntityId && w.entities[id].owner in w.accounts
        && (w.entities[id].contract.Some? ==> w.entities[id].contract.value in w.contracts)
        && Placed(w.entities, id)
    {
      hide EntitiesOk, LocationsOk;
    }
    if EntitiesOk(w.accounts, w.contracts, w.entities, w.nextEntityId) && LocationsOk(w.entities) {
      forall id | id in w.entities
        ensures EntityStands(w, id)
      {
        assert Placed(w.entities, id);
      }
    }
    if forall id :: id in w.entities ==> EntityStands(w, id) {
      forall id | id in w.entities
        ensures Placed(w.entities, id) && id == w.entities[id].id && id < w.nextEntityId
        ensures w.entities[id].owner in w.accounts
        ensures w.entities[id].contract.Some? ==> w.entities[id].contract.value in w.contracts
      {
        assert EntityStands(w, id);
      }
    }
  }

  lemma ProgressStandsAll(w: World)
    ensures ProgressOk(w.entities, w.quests, w.progress) <==> forall key :: key in w.progress ==> ProgressStands(w, key)
  {
    hide Decimal;
    if forall key :: key in w.progress ==> ProgressStands(w, key) {
      forall k | k in w.progress
        ensures k == ProgressKey(w.progress[k].actorId, w.progress[k].questId)
        ensures IsA(w.entities, w.progress[k].actorId, Actor) && w.progress[k].questId in w.quests
      {
        assert ProgressStands(w, k);
      }
    }
  }

  lemma ReceiptsStand(w: World)
    ensures ReceiptsOk(w.accounts, w.receipts) <==> forall id :: id in w.receipts ==> ReceiptStands(w, id)
  {
    hide IsHex32, HexOf32;
    forall id | id in w.receipts
      ensures IsHex32(id) <==> HexOf32(id)
      ensures IsHex32(w.receipts[id].stateRoot) <==> HexOf32(w.receipts[id].stateRoot)
    {
      HexAgrees(id);
      HexAgrees(w.receipts[id].stateRoot);
    }
    if forall id :: id in w.receipts ==> ReceiptStands(w, id) {
      forall k | k in w.receipts
        ensures k == w.receipts[k].txId && w.receipts[k].from in w.accounts
        ensures IsHex32(k) && IsHex32(w.receipts[k].stateRoot)
      {
        assert ReceiptStands(w, k);
      }
    }
  }

  lemma InventoriesStandIff(w: World)
    ensures InventoriesOk(w.entities, w.inventories) <==> InventoriesStand(w)
  {
    if InventoriesOk(w.entities, w.inventories) {
      forall o, i, j | o in w.inventories && 0 <= i < j < |w.inventories[o]|
        ensures w.inventories[o][i] != w.inventories[o][j]
      {
        assert Distinct(w.inventories[o]);
      }
    }
    if InventoriesStand(w) {
      forall i | i in w.entities && CarriedItem(w.entities, w.entities[i])
        ensures Holds(w.inventories, w.entities[i].location.value, i)
      {
        assert Exists(w, w.entities[i].location.value, Actor) && Exists(w, i, Item);
      }
      forall o: nat, i: nat | Holds(w.inventories, o, i)
        ensures IsA(w.entities, i, Item) && w.entities[i].location == Some(o)
      {
        assert Exists(w, o, Actor);
      }
      forall o | o in w.inventories
        ensures IsA(w.entities, o, Actor) && Distinct(w.inventories[o])
      {
        assert Exists(w, o, Actor);
      }
    }
  }

  lemma ShapeStands(w: World, e: Event)
    requires 0 < e.id < w.nextEventId && e.head <= w.head
    ensures EventShapeOk(e, w.receipts) <==> EventStands(w, e)
  {
    if e.kind == TX_EXECUTED {
      TxShape(w, e);
    } else if e.kind == PROGRESS_CHANGED {
      if EventShapeOk(e, w.receipts) {
        assert Says(e.data, "quest_id", GetStr(e.data, "quest_id").value);
      }
    } else if e.kind == COMMAND_EXECUTED {
      if EventShapeOk(e, w.receipts) {
        assert Says(e.data, "action", GetStr(e.data, "action").value);
      }
    }
  }

  lemma TxShape(w: World, e: Event)
    requires e.kind == TX_EXECUTED
    ensures EventShapeOk(e, w.receipts) <==> exists id :: TellsReceipt(w, e, id)
  {
    KindsDiffer();
    if EventShapeOk(e, w.receipts) {
      assert TellsReceipt(w, e, GetStr(e.data, "tx_id").value);
    }
  }

  lemma KindsDiffer()
    ensures TX_EXECUTED !in {"", ENTITY_CHANGED, PROGRESS_CHANGED, COMMAND_EXECUTED}
    ensures COMMAND_EXECUTED !in {"", ENTITY_CHANGED, PROGRESS_CHANGED}
    ensures PROGRESS_CHANGED !in {"", ENTITY_CHANGED} && ENTITY_CHANGED != ""
  {
    assert TX_EXECUTED[0] == 't' && COMMAND_EXECUTED[0] == 'c' && PROGRESS_CHANGED[0] == 'q';
    assert ENTITY_CHANGED[0] == 'e';
  }

  lemma LogStandsIff(w: World)
    ensures EventsOk(w.events, w.receipts, w.head, w.nextEventId) <==> 0 < w.nextEventId && LogStands(w)
  {
    hide EventShapeOk, EventStands;
    if EventsOk(w.events, w.receipts, w.head, w.nextEventId) {
      forall i | 0 <= i < |w.events|
        ensures EventStands(w, w.events[i])
      {
        ShapeStands(w, w.events[i]);
      }
      forall i, j, id | 0 <= i < j < |w.events|
        ensures !BothTell(w.events[i], w.events[j], id)
      {
        assert !SameTx(w.events[i], w.events[j]);
      }
    }
    if 0 < w.nextEventId && LogStands(w) {
      LogStandsOk(w);
    }
  }

  lemma LogStandsOk(w: World)
    requires 0 < w.nextEventId && LogStands(w)
    ensures EventsOk(w.events, w.receipts, w.head, w.nextEventId)
  {
    hide EventShapeOk, EventStands, SameTx;
    forall i | 0 <= i < |w.events|
      ensures 0 < w.events[i].id < w.nextEventId && w.events[i].head <= w.head
      ensures EventShapeOk(w.events[i], w.receipts)
    {
      assert EventStands(w, w.events[i]);
      StandsBounds(w, w.events[i]);
      ShapeStands(w, w.events[i]);
    }
    forall i, j | 0 <= i < j < |w.events|
      ensures !SameTx(w.events[i], w.events[j])
    {
      DifferentTx(w, w.events[i], w.events[j]);
    }
  }

  lemma StandsBounds(w: World, e: Event)
    requires EventStands(w, e)
    ensures 0 < e.id < w.nextEventId && e.head <= w.head
  {
  }

  lemma DifferentTx(w: World, a: Event, b: Event)
    requires EventStands(w, a)
    requires forall id :: !BothTell(a, b, id)
    ensures !SameTx(a, b)
  {
    if a.kind == TX_EXECUTED && b.kind == TX_EXECUTED {
      var id :| TellsReceipt(w, a, id);
      assert !BothTell(a, b, id);
    }
  }

  lemma OneQuestStands(w: World, q: string)
    requires q in w.quests
    ensures QuestOk(w.entities, w.quests, q) <==> QuestStands(w, q)
  {
    var g, listed := Prerequisites(w.quests), w.quests[q].prerequisites;
    assert g[q] == listed && g.Keys == w.quests.Keys;
    assert Elements(listed) <= g.Keys <==> forall p :: p in listed ==> p in w.quests by {
      assert forall p :: p in listed <==> p in Elements(listed);
    }
  }

  lemma QuestsStand(w: World)
    ensures QuestsOk(w.entities, w.quests) <==>
      (forall key :: key in w.quests ==> QuestStands(w, key)) && Acyclic(Prerequisites(w.quests))
  {
    hide Acyclic, QuestStands, QuestOk;
    forall q | q in w.quests
      ensures QuestOk(w.entities, w.quests, q) <==> QuestStands(w, q)
    {
      OneQuestStands(w, q);
    }
    if forall key :: key in w.quests ==> QuestStands(w, key) {
      forall q | q in w.quests
        ensures QuestOk(w.entities, w.quests, q)
      {
        assert QuestStands(w, q);
      }
    }
  }

  /** A world is valid exactly if every entry stands and no quest requires itself in a round. */
  lemma ValidIff(w: World, blake3: string -> string)
    ensures Valid(w, blake3) <==>
      && 0 < w.nextEntityId && 0 < w.nextEventId
      && (forall name :: name in w.accounts ==> AccountStands(w, name))
      && (forall key :: key in w.contracts ==> ContractStands(w, key, blake3))
      && (forall id :: id in w.entities ==> EntityStands(w, id))
      && (forall key :: key in w.progress ==> ProgressStands(w, key))
      && (forall id :: id in w.receipts ==> ReceiptStands(w, id))
      && LogStands(w)
      && (forall key :: key in w.quests ==> QuestStands(w, key)) && Acyclic(Prerequisites(w.quests))
      && InventoriesStand(w)
  {
    hide AccountsOk, ContractsOk, EntitiesOk, LocationsOk, ProgressOk, ReceiptsOk, EventsOk, QuestsOk, InventoriesOk,
      LogStands, InventoriesStand, AccountStands, ContractStands, EntityStands, ProgressStands, ReceiptStands,
      QuestStands, Acyclic;
    AccountsStand(w);
    ContractsStand(w, blake3);
    EntitiesStand(w);
    ProgressStandsAll(w);
    ReceiptsStand(w);
    LogStandsIff(w);
    QuestsStand(w);
    InventoriesStandIff(w);
  }
}
