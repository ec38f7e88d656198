/**
 The host operations a contract script can call (src/runtime.rs, `install`), as functions
 of the world: each yields the world afterwards and whether the call succeeded.
 */
module HostOps {
  import opened Common
  import opened Json
  import opened Model

  datatype Step = Step(world: World, ok: bool)

  function Refuse(w: World): Step {
    Step(w, false)
  }

  function Relocate(entities: map<nat, Entity>, id: nat, place: nat): map<nat, Entity>
    requires id in entities
  {
    entities[id := entities[id].(location := Some(place))]
  }

  function Items(inventories: map<nat, seq<nat>>, owner: nat): seq<nat> {
    if owner in inventories then inventories[owner] else []
  }

  function RemoveFirst(items: seq<nat>, item: nat): seq<nat> {
    if items == [] then []
    else if items[0] == item then items[1..]
    else [items[0]] + RemoveFirst(items[1..], item)
  }

  function RemoveAll(items: seq<nat>, item: nat): seq<nat> {
    if items == [] then []
    else (if items[0] == item then [] else [items[0]]) + RemoveAll(items[1..], item)
  }

  function DataStr(e: Entity, key: string): Option<string> {
    if key in e.data && e.data[key].Str? then Some(e.data[key].s) else None
  }

  // ---------- movement ----------

  function MoveActor(w: World, actor: nat, zone: nat): (s: Step)
    ensures s.world == w.(entities := s.world.entities)
  {
    if !IsA(w.entities, zone, Zone) || !IsA(w.entities, actor, Actor) then Refuse(w)
    else Step(w.(entities := Relocate(w.entities, actor, w.entities[zone].id)), true)
  }

  function MoveEntity(w: World, caller: nat, id: nat, place: nat): (s: Step)
    ensures s.world == w.(entities := s.world.entities)
  {
    if caller !in w.entities || id !in w.entities || w.entities[id].owner != w.entities[caller].owner
       || place !in w.entities then Refuse(w)
    else Step(w.(entities := Relocate(w.entities, id, place)), true)
  }

  // ---------- items ----------

  function TakeItem(w: World, caller: nat, item: nat): (s: Step)
    ensures s.world == w.(entities := s.world.entities, inventories := s.world.inventories)
  {
    if caller !in w.entities || !IsA(w.entities, item, Item)
       || w.entities[item].location != w.entities[caller].location
       || (exists o :: o in w.inventories && item in w.inventories[o]) then Refuse(w)
    else
      Step(w.(entities := Relocate(w.entities, item, caller),
              inventories := w.inventories[caller := Items(w.inventories, caller) + [item]]), true)
  }

  /** The item leaves the inventory before its entity is looked up, as in the source. */
  function DropItem(w: World, caller: nat, item: nat): (s: Step)
    ensures s.world == w.(entities := s.world.entities, inventories := s.world.inventories)
  {
    if caller !in w.entities || w.entities[caller].location.None? || !Holds(w.inventories, caller, item) then Refuse(w)
    else
      var dropped := w.(inventories := w.inventories[caller := RemoveFirst(w.inventories[caller], item)]);
      if item !in w.entities then Step(dropped, false)
      else Step(dropped.(entities := Relocate(w.entities, item, w.entities[caller].location.value)), true)
  }

  function TransferItem(w: World, caller: nat, item: nat, target: nat): (s: Step)
    ensures s.world == w.(entities := s.world.entities, inventories := s.world.inventories)
  {
    if target == caller || caller !in w.entities || !IsA(w.entities, target, Actor)
       || w.entities[target].location != w.entities[caller].location
       || !Holds(w.inventories, caller, item)
       || !IsA(w.entities, item, Item) || w.entities[item].location != Some(caller) then Refuse(w)
    else
      var taken := w.inventories[caller := RemoveFirst(w.inventories[caller], item)];
      Step(w.(entities := Relocate(w.entities, item, target),
              inventories := taken[target := Items(taken, target) + [item]]), true)
  }

  // ---------- entities and events ----------

  function ParseKind(kind: string): Option<Kind> {
    match kind
    case "actor" => Some(Actor)
    case "zone" => Some(Zone)
    case "item" => Some(Item)
    case _ => None
  }

  /** `create_entity`: also the administrative call, which does not log an event. */
  function CreateEntity(
    w: World, kind: Kind, owner: string, contract: Option<string>, location: Option<nat>, data: map<string, Json>)
    : (s: Step)
    ensures s.world == w.(entities := s.world.entities, nextEntityId := s.world.nextEntityId, head := s.world.head)
  {
    if owner !in w.accounts || (contract.Some? && contract.value !in w.contracts) then Refuse(w)
    else
      var id := w.nextEntityId;
      Step(w.(entities := w.entities[id := Entity(id, kind, owner, location, contract, data)],
              nextEntityId := id + 1, head := w.head + 1), true)
  }

  function SpawnEntity(w: World, caller: nat, kind: string, location: Option<nat>, data: Json): (s: Step)
    ensures s.world == w.(entities := s.world.entities, nextEntityId := s.world.nextEntityId, head := s.world.head)
  {
    if ParseKind(kind).None? || !data.Obj? || caller !in w.entities then Refuse(w)
    else CreateEntity(w, ParseKind(kind).value, w.entities[caller].owner, None, location, data.fields)
  }

  function UpdateEntityData(w: World, caller: nat, id: nat, key: string, value: Json): (s: Step)
    ensures s.world == w.(entities := s.world.entities)
  {
    if caller !in w.entities || id !in w.entities || w.entities[caller].owner != w.entities[id].owner then Refuse(w)
    else
      var e := w.entities[id];
      Step(w.(entities := w.entities[id := e.(data := e.data[key := value])]), true)
  }

  function Append(w: World, kind: string, entityId: Option<nat>, data: Json): World {
    w.(events := w.events + [Event(w.nextEventId, w.head, kind, entityId, data)], nextEventId := w.nextEventId + 1)
  }

  predicate Reserved(kind: string) {
    kind in {ENTITY_CHANGED, PROGRESS_CHANGED, COMMAND_EXECUTED, TX_EXECUTED}
  }

  function EmitEvent(w: World, kind: string, entityId: Option<nat>, data: Json): (s: Step)
    ensures s.world == w.(events := s.world.events, nextEventId := s.world.nextEventId)
  {
    if kind == "" || Reserved(kind) || (entityId.Some? && entityId.value !in w.entities) then Refuse(w)
    else Step(Append(w, kind, entityId, data), true)
  }

  // ---------- quests and balances ----------

  predicate Done(w: World, actor: nat, quest: string) {
    var key := ProgressKey(actor, quest);
    key in w.progress && w.progress[key].status == Completed
  }

  function AcceptQuest(w: World, caller: nat, quest: string, giver: nat): (s: Step)
    ensures s.world == w.(progress := s.world.progress)
  {
    var key := ProgressKey(caller, quest);
    if quest !in w.quests || w.quests[quest].giver != giver
       || (exists p :: p in w.quests[quest].prerequisites && !Done(w, caller, p))
       || caller !in w.entities || w.entities[caller].location.None?
       || !IsA(w.entities, giver, Actor) || w.entities[giver].location != w.entities[caller].location
       || key in w.progress then Refuse(w)
    else Step(w.(progress := w.progress[key := Progress(quest, caller, Accepted)]), true)
  }

  /** The first carried item of that name. */
  function FindNamed(entities: map<nat, Entity>, items: seq<nat>, name: string): Option<nat> {
    if items == [] then None
    else if items[0] in entities && DataStr(entities[items[0]], "name") == Some(name) then Some(items[0])
    else FindNamed(entities, items[1..], name)
  }

  predicate AtZone(w: World, actor: nat, name: string)
    requires actor in w.entities
  {
    var place := w.entities[actor].location;
    place.Some? && place.value in w.entities && DataStr(w.entities[place.value], "name") == Some(name)
  }

  function Credit(w: World, account: string, amount: nat): (s: Step)
    ensures s.world == w.(accounts := s.world.accounts)
  {
    if account !in w.accounts || w.accounts[account].balance + amount > MAX_U64 then Refuse(w)
    else
      var a := w.accounts[account];
      Step(w.(accounts := w.accounts[account := a.(balance := a.balance + amount)]), true)
  }

  function Consume(w: World, caller: nat, item: nat): World {
    w.(entities := w.entities - {item},
       inventories := w.inventories[caller := RemoveAll(Items(w.inventories, caller), item)])
  }

  function CompleteQuest(w: World, caller: nat, quest: string): (s: Step)
    ensures s.world == w.(accounts := s.world.accounts, entities := s.world.entities,
                          inventories := s.world.inventories, progress := s.world.progress)
  {
    var key := ProgressKey(caller, quest);
    if quest !in w.quests || key !in w.progress || w.progress[key].status == Completed
       || caller !in w.entities || !AtZone(w, caller, w.quests[quest].completionZone) then Refuse(w)
    else
      var q := w.quests[quest];
      var item := FindNamed(w.entities, Items(w.inventories, caller), q.requiredItem);
      var paid := Credit(w, w.entities[caller].owner, q.reward);
      if item.None? || !paid.ok then Refuse(w)
      else
        var used := if q.consumeItem then Consume(paid.world, caller, item.value) else paid.world;
        Step(used.(progress := used.progress[key := used.progress[key].(status := Completed)]), true)
  }

  function CreditBalance(w: World, caller: nat, amount: nat): (s: Step)
    ensures s.world == w.(accounts := s.world.accounts)
  {
    if caller !in w.entities then Refuse(w) else Credit(w, w.entities[caller].owner, amount)
  }

  // ---------- calls and scripts ----------

  datatype Call =
    | CallMoveActor(actor: nat, zone: nat)
    | CallTakeItem(item: nat)
    | CallDropItem(item: nat)
    | CallTransferItem(item: nat, target: nat)
    | CallMoveEntity(id: nat, place: nat)
    | CallSpawnEntity(kind: string, location: Option<nat>, data: Json)
    | CallUpdateEntityData(id: nat, key: string, value: Json)
    | CallEmitEvent(kind: string, entityId: Option<nat>, data: Json)
    | CallAcceptQuest(quest: string, giver: nat)
    | CallCompleteQuest(quest: string)
    | CallCreditBalance(amount: nat)

  /** The contract says which parts of the world each kind of call leaves alone. */
  function Perform(w: World, caller: nat, call: Call): (s: Step)
    ensures s.world.receipts == w.receipts && s.world.contracts == w.contracts && s.world.quests == w.quests
    ensures !call.CallCompleteQuest? && !call.CallCreditBalance? ==> s.world.accounts == w.accounts
    ensures !call.CallCompleteQuest? && !call.CallAcceptQuest? ==> s.world.progress == w.progress
    ensures !call.CallEmitEvent? ==> s.world.events == w.events && s.world.nextEventId == w.nextEventId
    ensures !call.CallSpawnEntity? ==> s.world.nextEntityId == w.nextEntityId
    ensures w.head <= s.world.head
  {
    match call
    case CallMoveActor(actor, zone) => MoveActor(w, actor, zone)
    case CallTakeItem(item) => TakeItem(w, caller, item)
    case CallDropItem(item) => DropItem(w, caller, item)
    case CallTransferItem(item, target) => TransferItem(w, caller, item, target)
    case CallMoveEntity(id, place) => MoveEntity(w, caller, id, place)
    case CallSpawnEntity(kind, location, data) => SpawnEntity(w, caller, kind, location, data)
    case CallUpdateEntityData(id, key, value) => UpdateEntityData(w, caller, id, key, value)
    case CallEmitEvent(kind, entityId, data) => EmitEvent(w, kind, entityId, data)
    case CallAcceptQuest(quest, giver) => AcceptQuest(w, caller, quest, giver)
    case CallCompleteQuest(quest) => CompleteQuest(w, caller, quest)
    case CallCreditBalance(amount) => CreditBalance(w, caller, amount)
  }

  /** A script's calls in order; a script may catch the error of a failed call and go on. */
  function PerformAll(w: World, caller: nat, calls: seq<Call>): World
    decreases |calls|
  {
    if calls == [] then w else PerformAll(Perform(w, caller, calls[0]).world, caller, calls[1..])
  }
}
