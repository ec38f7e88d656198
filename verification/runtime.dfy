/**
 The runtime as it changes the world in place (src/runtime.rs): the host operations a
 contract calls, the execution of a command, and the signed transaction around it. Each
 method is proved to have exactly the effect of its function in HostOps and Execution.
 */
module Runtime {
  import opened Common
  import opened Text
  import opened Json
  import opened Model
  import opened HostOps
  import opened Execution

  /** Where an item first sits in an inventory. */
  function Position(items: seq<nat>, item: nat): (p: Option<nat>)
    ensures p.Some? <==> item in items
    ensures p.Some? ==> p.value < |items| && items[p.value] == item && item !in items[..p.value]
  {
    if items == [] then None
    else if items[0] == item then Some(0)
    else
      match Position(items[1..], item)
      case None => None
      case Some(i) =>
        assert items[..i + 1] == [items[0]] + items[1..][..i];
        Some(i + 1)
  }

  /** Removing at the first position removes the first occurrence. */
  lemma {:induction false} RemoveAt(items: seq<nat>, item: nat, p: nat)
    requires p < |items| && items[p] == item && item !in items[..p]
    ensures RemoveFirst(items, item) == items[..p] + items[p + 1..]
  {
    if p == 0 {
    } else {
      var rest := items[1..];
      assert rest[..p - 1] == items[1..p];
      assert item !in rest[..p - 1] by {
        assert forall j :: 1 <= j < p ==> items[j] == items[..p][j];
      }
      RemoveAt(rest, item, p - 1);
      assert items[..p] == [items[0]] + rest[..p - 1];
      assert items[0] in items[..p];
    }
  }

  /** `retain`: everything but the item. */
  method Without(items: seq<nat>, item: nat) returns (kept: seq<nat>)
    ensures kept == RemoveAll(items, item)
  {
    kept := [];
    for n := 0 to |items|
      invariant kept + RemoveAll(items[n..], item) == RemoveAll(items, item)
    {
      assert items[n..][1..] == items[n + 1..];
      if items[n] != item {
        kept := kept + [items[n]];
      }
    }
    assert items[|items|..] == [];
  }

  method FirstNamed(entities: map<nat, Entity>, items: seq<nat>, name: string) returns (found: Option<nat>)
    ensures found == FindNamed(entities, items, name)
  {
    for n := 0 to |items|
      invariant FindNamed(entities, items, name) == FindNamed(entities, items[n..], name)
    {
      assert items[n..][1..] == items[n + 1..];
      if items[n] in entities && DataStr(entities[items[n]], "name") == Some(name) {
        return Some(items[n]);
      }
    }
    return None;
  }

  /** The mutable world. */
  class WorldState {
    var accounts: map<string, Account>
    var entities: map<nat, Entity>
    var contracts: map<string, Contract>
    var receipts: map<string, Receipt>
    var quests: map<string, Quest>
    var progress: map<string, Progress>
    var inventories: map<nat, seq<nat>>
    var events: seq<Event>
    var nextEventId: nat
    var nextEntityId: nat
    var head: nat

    function View(): World
      reads this
    {
      World(accounts, entities, contracts, receipts, quests, progress, inventories, events, nextEventId, nextEntityId,
            head)
    }

    constructor (w: World)
      ensures View() == w
    {
      accounts, entities, contracts, receipts := w.accounts, w.entities, w.contracts, w.receipts;
      quests, progress, inventories := w.quests, w.progress, w.inventories;
      events, nextEventId, nextEntityId, head := w.events, w.nextEventId, w.nextEntityId, w.head;
    }

    method Assign(w: World)
      modifies this
      ensures View() == w
    {
      accounts, entities, contracts, receipts := w.accounts, w.entities, w.contracts, w.receipts;
      quests, progress, inventories := w.quests, w.progress, w.inventories;
      events, nextEventId, nextEntityId, head := w.events, w.nextEventId, w.nextEntityId, w.head;
    }

    method PushEvent(kind: string, entityId: Option<nat>, data: Json)
      modifies `events, `nextEventId
      ensures View() == Append(old(View()), kind, entityId, data)
    {
      var id := nextEventId;
      nextEventId := nextEventId + 1;
      events := events + [Event(id, head, kind, entityId, data)];
    }

    method DeployVersion(env: Env, name: string, version: nat, source: string) returns (ok: bool)
      modifies this
      ensures Step(View(), ok) == Deploy(env, old(View()), name, version, source)
    {
      if version == 0 {
        return false;
      }
      var key := ContractKey(name, version);
      if key in contracts {
        return false;
      }
      contracts := contracts[key := Contract(name, version, source, env.blake3(source), Published)];
      head := head + 1;
      return true;
    }

    method NewEntity(
      kind: Kind, owner: string, contract: Option<string>, location: Option<nat>, data: map<string, Json>)
      returns (created: Option<nat>)
      modifies this
      ensures Step(View(), created.Some?) == CreateEntity(old(View()), kind, owner, contract, location, data)
      ensures created.Some? ==> created.value == old(nextEntityId) && nextEntityId == created.value + 1
    {
      if owner !in accounts {
        return None;
      }
      if contract.Some? && contract.value !in contracts {
        return None;
      }
      var id := nextEntityId;
      nextEntityId := nextEntityId + 1;
      entities := entities[id := Entity(id, kind, owner, location, contract, data)];
      head := head + 1;
      return Some(id);
    }

    method SetLocation(id: nat, place: nat)
      requires id in entities
      modifies `entities
      ensures entities == Relocate(old(entities), id, place)
    {
      entities := entities[id := entities[id].(location := Some(place))];
    }
  }

  /** A query's host calls that would change the world are refused. */
  function Gate(command: bool, w: World, s: Step): Step {
    if command then s else Refuse(w)
  }

  /** The host object one script sees: the shared world, the entity it runs for, and whether it may write. */
  class Host {
    const state: WorldState
    const caller: nat
    const command: bool
    var messages: seq<string>

    constructor (state: WorldState, caller: nat, command: bool)
      ensures this.state == state && this.caller == caller && this.command == command && messages == []
    {
      this.state, this.caller, this.command, this.messages := state, caller, command, [];
    }

    method Narrate(message: string)
      modifies this
      ensures messages == old(messages) + [message]
    {
      messages := messages + [message];
    }

    method DoMoveActor(actor: nat, zone: nat) returns (ok: bool)
      modifies state
      ensures Step(state.View(), ok) == Gate(command, old(state.View()), MoveActor(old(state.View()), actor, zone))
    {
      if !command {
        return false;
      }
      if zone !in state.entities || state.entities[zone].kind != Zone {
        return false;
      }
      var target := state.entities[zone].id;
      if actor !in state.entities || state.entities[actor].kind != Actor {
        return false;
      }
      state.SetLocation(actor, target);
      return true;
    }

    method DoTakeItem(item: nat) returns (ok: bool)
      modifies state
      ensures Step(state.View(), ok) == Gate(command, old(state.View()), TakeItem(old(state.View()), caller, item))
    {
      if !command || caller !in state.entities || item !in state.entities {
        return false;
      }
      var place := state.entities[caller].location;
      if state.entities[item].kind != Item || state.entities[item].location != place {
        return false;
      }
      if exists o :: o in state.inventories && item in state.inventories[o] {
        return false;
      }
      state.SetLocation(item, caller);
      state.inventories := state.inventories[caller := Items(state.inventories, caller) + [item]];
      return true;
    }

    method DoDropItem(item: nat) returns (ok: bool)
      modifies state
      ensures Step(state.View(), ok) == Gate(command, old(state.View()), DropItem(old(state.View()), caller, item))
    {
      if !command || caller !in state.entities || state.entities[caller].location.None? {
        return false;
      }
      var place := state.entities[caller].location.value;
      if caller !in state.inventories {
        return false;
      }
      var items := state.inventories[caller];
      var position := Position(items, item);
      if position.None? {
        return false;
      }
      RemoveAt(items, item, position.value);
      state.inventories := state.inventories[caller := items[..position.value] + items[position.value + 1..]];
      if item !in state.entities {
        return false;
      }
      state.SetLocation(item, place);
      return true;
    }

    method DoTransferItem(item: nat, target: nat) returns (ok: bool)
      modifies state
      ensures Step(state.View(), ok) ==
        Gate(command, old(state.View()), TransferItem(old(state.View()), caller, item, target))
    {
      if !command || target == caller || caller !in state.entities || target !in state.entities {
        return false;
      }
      var place := state.entities[caller].location;
      if state.entities[target].kind != Actor || state.entities[target].location != place {
        return false;
      }
      if caller !in state.inventories {
        return false;
      }
      var items := state.inventories[caller];
      var position := Position(items, item);
      if position.None? {
        return false;
      }
      RemoveAt(items, item, position.value);
      if item !in state.entities || state.entities[item].kind != Item || state.entities[item].location != Some(caller) {
        return false;
      }
      state.inventories := state.inventories[caller := items[..position.value] + items[position.value + 1..]];
      state.inventories := state.inventories[target := Items(state.inventories, target) + [item]];
      state.SetLocation(item, target);
      return true;
    }

    method DoMoveEntity(id: nat, place: nat) returns (ok: bool)
      modifies state
      ensures Step(state.View(), ok) ==
        Gate(command, old(state.View()), MoveEntity(old(state.View()), caller, id, place))
    {
      if !command || caller !in state.entities || id !in state.entities {
        return false;
      }
      if state.entities[id].owner != state.entities[caller].owner || place !in state.entities {
        return false;
      }
      state.SetLocation(id, place);
      return true;
    }

    method DoSpawnEntity(kind: string, location: Option<nat>, data: Json) returns (ok: bool)
      modifies state
      ensures Step(state.View(), ok) ==
        Gate(command, old(state.View()), SpawnEntity(old(state.View()), caller, kind, location, data))
    {
      if !command || ParseKind(kind).None? || !data.Obj? || caller !in state.entities {
        return false;
      }
      var owner := state.entities[caller].owner;
      var id := state.NewEntity(ParseKind(kind).value, owner, None, location, data.fields);
      return id.Some?;
    }

    method DoUpdateEntityData(id: nat, key: string, value: Json) returns (ok: bool)
      modifies state
      ensures Step(state.View(), ok) ==
        Gate(command, old(state.View()), UpdateEntityData(old(state.View()), caller, id, key, value))
    {
      if !command || caller !in state.entities || id !in state.entities {
        return false;
      }
      if state.entities[caller].owner != state.entities[id].owner {
        return false;
      }
      var entity := state.entities[id];
      state.entities := state.entities[id := entity.(data := entity.data[key := value])];
      return true;
    }

    method DoEmitEvent(kind: string, entityId: Option<nat>, data: Json) returns (ok: bool)
      modifies state
      ensures Step(state.View(), ok) ==
        Gate(command, old(state.View()), EmitEvent(old(state.View()), kind, entityId, data))
    {
      if !command || kind == "" || Reserved(kind) {
        return false;
      }
      if entityId.Some? && entityId.value !in state.entities {
        return false;
      }
      state.PushEvent(kind, entityId, data);
      return true;
    }

    method DoAcceptQuest(quest: string, giver: nat) returns (ok: bool)
      modifies state
      ensures Step(state.View(), ok) ==
        Gate(command, old(state.View()), AcceptQuest(old(state.View()), caller, quest, giver))
    {
      if !command || quest !in state.quests || state.quests[quest].giver != giver {
        return false;
      }
      var needed := state.quests[quest].prerequisites;
      for n := 0 to |needed|
        invariant forall p :: p in needed[..n] ==> Done(state.View(), caller, p)
      {
        var key := ProgressKey(caller, needed[n]);
        if key !in state.progress || state.progress[key].status != Completed {
          assert needed[n] in needed && !Done(state.View(), caller, needed[n]);
          return false;
        }
      }
      assert needed[..|needed|] == needed;
      if caller !in state.entities || state.entities[caller].location.None? {
        return false;
      }
      var place := state.entities[caller].location.value;
      if giver !in state.entities || state.entities[giver].kind != Actor
         || state.entities[giver].location != Some(place) {
        return false;
      }
      var key := ProgressKey(caller, quest);
      if key in state.progress {
        return false;
      }
      state.progress := state.progress[key := Progress(quest, caller, Accepted)];
      return true;
    }

    /** Adds to an account's balance with the source's overflow check. */
    method Pay(account: string, amount: nat) returns (ok: bool)
      modifies state`accounts
      ensures Step(state.View(), ok) == Credit(old(state.View()), account, amount)
    {
      if account !in state.accounts || state.accounts[account].balance + amount > MAX_U64 {
        return false;
      }
      var entry := state.accounts[account];
      state.accounts := state.accounts[account := entry.(balance := entry.balance + amount)];
      return true;
    }

    method DoCompleteQuest(quest: string) returns (ok: bool)
      modifies state
      ensures Step(state.View(), ok) ==
        Gate(command, old(state.View()), CompleteQuest(old(state.View()), caller, quest))
    {
      if !command || quest !in state.quests {
        return false;
      }
      var q := state.quests[quest];
      var key := ProgressKey(caller, quest);
      if key !in state.progress || state.progress[key].status != Accepted || caller !in state.entities {
        return false;
      }
      var actor := state.entities[caller];
      if actor.location.None? || actor.location.value !in state.entities
         || DataStr(state.entities[actor.location.value], "name") != Some(q.completionZone) {
        return false;
      }
      var items := Items(state.inventories, caller);
      var found := FirstNamed(state.entities, items, q.requiredItem);
      if found.None? {
        return false;
      }
      var paid := Pay(actor.owner, q.reward);
      if !paid {
        return false;
      }
      if q.consumeItem {
        var kept := Without(items, found.value);
        state.inventories := state.inventories[caller := kept];
        state.entities := state.entities - {found.value};
      }
      state.progress := state.progress[key := state.progress[key].(status := Completed)];
      return true;
    }

    method DoCreditBalance(amount: nat) returns (ok: bool)
      modifies state
      ensures Step(state.View(), ok) ==
        Gate(command, old(state.View()), CreditBalance(old(state.View()), caller, amount))
    {
      if !command || caller !in state.entities {
        return false;
      }
      var owner := state.entities[caller].owner;
      ok := Pay(owner, amount);
    }

    method Invoke(call: Call) returns (ok: bool)
      modifies state
      ensures Step(state.View(), ok) == Gate(command, old(state.View()), Perform(old(state.View()), caller, call))
    {
      match call
      case CallMoveActor(actor, zone) => ok := DoMoveActor(actor, zone);
      case CallTakeItem(item) => ok := DoTakeItem(item);
      case CallDropItem(item) => ok := DoDropItem(item);
      case CallTransferItem(item, target) => ok := DoTransferItem(item, target);
      case CallMoveEntity(id, place) => ok := DoMoveEntity(id, place);
      case CallSpawnEntity(kind, location, data) => ok := DoSpawnEntity(kind, location, data);
      case CallUpdateEntityData(id, key, value) => ok := DoUpdateEntityData(id, key, value);
      case CallEmitEvent(kind, entityId, data) => ok := DoEmitEvent(kind, entityId, data);
      case CallAcceptQuest(quest, giver) => ok := DoAcceptQuest(quest, giver);
      case CallCompleteQuest(quest) => ok := DoCompleteQuest(quest);
      case CallCreditBalance(amount) => ok := DoCreditBalance(amount);
    }

    /** A whole script: a query leaves the world alone whatever it calls. */
    method Play(calls: seq<Call>)
      modifies state
      ensures state.View() == if command then PerformAll(old(state.View()), caller, calls) else old(state.View())
    {
      for n := 0 to |calls|
        invariant command ==>
          PerformAll(state.View(), caller, calls[n..]) == PerformAll(old(state.View()), caller, calls)
        invariant !command ==> state.View() == old(state.View())
      {
        hide Perform;
        assert calls[n..][1..] == calls[n + 1..];
        var ok := Invoke(calls[n]);
      }
      assert calls[|calls|..] == [];
    }
  }
}
