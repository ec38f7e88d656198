/** The world state and its commit validation (src/model.rs). */
module Model {
  import opened Common
  import opened Text
  import opened Json
  import opened QuestGraph

  datatype Kind = Actor | Zone | Item

  datatype Entity = Entity(
    id: nat,
    kind: Kind,
    owner: string,
    location: Option<nat>,
    contract: Option<string>,
    data: map<string, Json>)

  datatype ContractStatus = Published | Deprecated

  datatype Contract = Contract(name: string, version: nat, source: string, sourceHash: string, status: ContractStatus)

  datatype Account = Account(name: string, publicKey: Option<string>, nonce: nat, balance: nat)

  datatype Receipt = Receipt(
    txId: string,
    from: string,
    nonce: nat,
    ok: bool,
    messages: seq<string>,
    result: Json,
    stateRoot: string)

  datatype QuestStatus = Accepted | Completed

  datatype Quest = Quest(
    id: string,
    title: string,
    giver: nat,
    prerequisites: seq<string>,
    requiredItem: string,
    completionZone: string,
    reward: nat,
    consumeItem: bool)

  datatype Progress = Progress(questId: string, actorId: nat, status: QuestStatus)

  datatype Event = Event(id: nat, head: nat, kind: string, entityId: Option<nat>, data: Json)

  datatype World = World(
    accounts: map<string, Account>,
    entities: map<nat, Entity>,
    contracts: map<string, Contract>,
    receipts: map<string, Receipt>,
    quests: map<string, Quest>,
    progress: map<string, Progress>,
    inventories: map<nat, seq<nat>>,
    events: seq<Event>,
    nextEventId: nat,
    nextEntityId: nat,
    head: nat)

  function Genesis(): World {
    World(map["admin" := Account("admin", None, 0, 0)], map[], map[], map[], map[], map[], map[], [], 1, 1, 0)
  }

  // ---------- keys ----------

  function ContractKey(name: string, version: nat): string {
    if version == 1 then name else name + "@" + Decimal(version)
  }

  function ProgressKey(actor: nat, quest: string): string {
    Decimal(actor) + ":" + quest
  }

  lemma ColonIndex(x: string, p: string, y: string, q: string)
    requires forall i :: 0 <= i < |y| ==> IsDigit(y[i])
    ensures |x| < |y| ==> x + ":" + p != y + ":" + q
  {
    if |x| < |y| {
      assert (x + ":" + p)[|x|] == ':' && (y + ":" + q)[|x|] == y[|x|];
    }
  }

  /** The first colon separates the actor from the quest, whatever the quest id contains. */
  lemma ProgressKeyInjective(a: nat, p: string, b: nat, q: string)
    requires ProgressKey(a, p) == ProgressKey(b, q)
    ensures a == b && p == q
  {
    DecimalRoundTrip(a);
    DecimalRoundTrip(b);
    var x, y, k := Decimal(a), Decimal(b), ProgressKey(a, p);
    ColonIndex(x, p, y, q);
    ColonIndex(y, q, x, p);
    assert x == k[..|x|] && y == k[..|y|];
    DecimalInjective(a, b);
    assert p == k[|x| + 1..] && q == k[|y| + 1..];
  }

  lemma AtIndex(a: string, x: string, b: string, y: string)
    requires forall i :: 0 <= i < |y| ==> IsDigit(y[i])
    ensures |x| < |y| ==> a + "@" + x != b + "@" + y
  {
    if |x| < |y| {
      var k, l := a + "@" + x, b + "@" + y;
      assert k[|a|] == '@';
      if |k| == |l| {
        assert l[|a|] == y[|a| - |b| - 1];
      }
    }
  }

  lemma VersionedKeys(a: string, m: nat, b: string, n: nat)
    requires a + "@" + Decimal(m) == b + "@" + Decimal(n)
    ensures a == b && m == n
  {
    DecimalRoundTrip(m);
    DecimalRoundTrip(n);
    var x, y, k := Decimal(m), Decimal(n), a + "@" + Decimal(m);
    AtIndex(a, x, b, y);
    AtIndex(b, y, a, x);
    assert |x| == |y| && a == k[..|a|] && b == k[..|b|] && x == k[|a| + 1..] && y == k[|b| + 1..];
    DecimalInjective(m, n);
  }

  /**
   Two contracts get one key exactly when they are the same, or the name of one, at version
   1, spells out the key of the other.
   */
  lemma ContractKeyClash(a: string, m: nat, b: string, n: nat)
    ensures ContractKey(a, m) == ContractKey(b, n) <==>
      || (a == b && m == n)
      || (m == 1 && n != 1 && a == b + "@" + Decimal(n))
      || (n == 1 && m != 1 && b == a + "@" + Decimal(m))
  {
    if m != 1 && n != 1 && ContractKey(a, m) == ContractKey(b, n) {
      VersionedKeys(a, m, b, n);
    }
  }

  predicate IsHexDigit(c: char) {
    IsDigit(c) || 'a' <= c <= 'f' || 'A' <= c <= 'F'
  }

  /** A 32-byte value in hex, of either letter case, as `hex::decode` reads it. */
  predicate IsHex32(s: string) {
    |s| == 64 && forall i :: 0 <= i < |s| ==> IsHexDigit(s[i])
  }

  // ---------- what each validator establishes ----------

  predicate AccountsOk(accounts: map<string, Account>) {
    forall k :: k in accounts ==>
      k == accounts[k].name && k != "" && (accounts[k].publicKey.Some? ==> IsHex32(accounts[k].publicKey.value))
  }

  /** `blake3` is the digest of a contract source, in hex. */
  predicate ContractsOk(contracts: map<string, Contract>, blake3: string -> string) {
    forall k :: k in contracts ==>
      var c := contracts[k];
      c.name != "" && c.version != 0 && k == ContractKey(c.name, c.version) && c.sourceHash == blake3(c.source)
  }

  predicate EntitiesOk(
    accounts: map<string, Account>, contracts: map<string, Contract>, entities: map<nat, Entity>, next: nat)
  {
    && 0 < next
    && forall k :: k in entities ==>
      && k == entities[k].id && k < next
      && entities[k].owner in accounts
      && (entities[k].contract.Some? ==> entities[k].contract.value in contracts)
  }

  predicate IsA(entities: map<nat, Entity>, id: nat, kind: Kind) {
    id in entities && entities[id].kind == kind
  }

  predicate ProgressOk(entities: map<nat, Entity>, quests: map<string, Quest>, progress: map<string, Progress>) {
    forall k :: k in progress ==>
      && k == ProgressKey(progress[k].actorId, progress[k].questId)
      && IsA(entities, progress[k].actorId, Actor)
      && progress[k].questId in quests
  }

  predicate ReceiptsOk(accounts: map<string, Account>, receipts: map<string, Receipt>) {
    forall k :: k in receipts ==>
      k == receipts[k].txId && receipts[k].from in accounts && IsHex32(k) && IsHex32(receipts[k].stateRoot)
  }

  predicate PlaceOk(entities: map<nat, Entity>, kind: Kind, location: Option<nat>) {
    match location
    case None => true
    case Some(l) =>
      match kind
      case Zone => false
      case Actor => IsA(entities, l, Zone)
      case Item => IsA(entities, l, Zone) || IsA(entities, l, Actor)
  }

  predicate Placed(entities: map<nat, Entity>, k: nat)
    requires k in entities
  {
    PlaceOk(entities, entities[k].kind, entities[k].location)
  }

  predicate LocationsOk(entities: map<nat, Entity>) {
    forall k {:trigger Placed(entities, k)} :: k in entities ==> Placed(entities, k)
  }

  predicate Holds(inventories: map<nat, seq<nat>>, owner: nat, item: nat) {
    owner in inventories && item in inventories[owner]
  }

  /** An item whose location is an actor. */
  predicate CarriedItem(entities: map<nat, Entity>, e: Entity) {
    e.kind == Item && e.location.Some? && IsA(entities, e.location.value, Actor)
  }

  /** Inventories and item locations index each other. */
  ghost predicate InventoriesOk(entities: map<nat, Entity>, inventories: map<nat, seq<nat>>) {
    && (forall o :: o in inventories ==> IsA(entities, o, Actor) && Distinct(inventories[o]))
    && (forall o: nat, i: nat {:trigger Holds(inventories, o, i)} :: Holds(inventories, o, i) ==>
      IsA(entities, i, Item) && entities[i].location == Some(o))
    && (forall i :: i in entities && CarriedItem(entities, entities[i]) ==>
      Holds(inventories, entities[i].location.value, i))
  }

  function Prerequisites(quests: map<string, Quest>): Graph {
    map q | q in quests :: quests[q].prerequisites
  }

  /** The per-quest checks, which also make the prerequisite graph well formed. */
  ghost predicate QuestOk(entities: map<nat, Entity>, quests: map<string, Quest>, q: string)
    requires q in quests
  {
    && q == quests[q].id && q != ""
    && IsA(entities, quests[q].giver, Actor)
    && Listed(Prerequisites(quests), q)
  }

  ghost predicate QuestsOk(entities: map<nat, Entity>, quests: map<string, Quest>) {
    && (forall q {:trigger QuestOk(entities, quests, q)} :: q in quests ==> QuestOk(entities, quests, q))
    && Acyclic(Prerequisites(quests))
  }

  const ENTITY_CHANGED := "entity_changed"
  const PROGRESS_CHANGED := "quest_progress_changed"
  const COMMAND_EXECUTED := "command_executed"
  const TX_EXECUTED := "transaction_executed"

  predicate EventShapeOk(e: Event, receipts: map<string, Receipt>) {
    && e.kind != ""
    && (e.kind == TX_EXECUTED ==>
      match (GetStr(e.data, "tx_id"), GetStr(e.data, "from"), GetU64(e.data, "nonce"))
      case (Some(id), Some(from), Some(nonce)) =>
        id in receipts && receipts[id].from == from && receipts[id].nonce == nonce
      case _ => false)
    && (e.kind == ENTITY_CHANGED ==>
      e.entityId.Some? && GetStr(e.data, "change") in {Some("created"), Some("updated"), Some("deleted")})
    && (e.kind == PROGRESS_CHANGED ==>
      && e.entityId.Some?
      && GetStr(e.data, "quest_id").Some? && GetStr(e.data, "quest_id").value != ""
      && GetStr(e.data, "status") in {Some("accepted"), Some("completed")})
    && (e.kind == COMMAND_EXECUTED ==>
      e.entityId.Some? && GetStr(e.data, "action").Some? && GetStr(e.data, "action").value != "")
  }

  ghost predicate EventLogOk(events: seq<Event>, receipts: map<string, Receipt>, head: nat) {
    && (forall i :: 0 <= i < |events| ==>
      0 < events[i].id && events[i].head <= head && EventShapeOk(events[i], receipts))
    && (forall i, j :: 0 <= i < j < |events| ==> events[i].id < events[j].id)
    && (forall i, j :: 0 <= i < j < |events| ==> !SameTx(events[i], events[j]))
  }

  /** Two `transaction_executed` events for one transaction. */
  predicate SameTx(a: Event, b: Event) {
    a.kind == TX_EXECUTED && b.kind == TX_EXECUTED && GetStr(a.data, "tx_id") == GetStr(b.data, "tx_id")
  }

  predicate NextAbove(events: seq<Event>, next: nat) {
    0 < next && forall i :: 0 <= i < |events| ==> events[i].id < next
  }

  ghost predicate EventsOk(events: seq<Event>, receipts: map<string, Receipt>, head: nat, next: nat) {
    EventLogOk(events, receipts, head) && NextAbove(events, next)
  }

  function LastId(events: seq<Event>): nat {
    if events == [] then 0 else events[|events| - 1].id
  }

  lemma IdsAppend(events: seq<Event>, e: Event)
    ensures (forall i, j :: 0 <= i < j < |events + [e]| ==> (events + [e])[i].id < (events + [e])[j].id) <==>
      (forall i, j :: 0 <= i < j < |events| ==> events[i].id < events[j].id) && (events == [] || LastId(events) < e.id)
  {
    var all := events + [e];
    assert forall i :: 0 <= i < |events| ==> all[i] == events[i];
    if events != [] && LastId(events) >= e.id {
      assert all[|events| - 1].id >= all[|events|].id;
    }
  }

  lemma SameTxAppend(events: seq<Event>, e: Event)
    ensures (forall i, j :: 0 <= i < j < |events + [e]| ==> !SameTx((events + [e])[i], (events + [e])[j])) <==>
      (forall i, j :: 0 <= i < j < |events| ==> !SameTx(events[i], events[j]))
      && (forall i :: 0 <= i < |events| ==> !SameTx(events[i], e))
  {
    hide SameTx;
    var all := events + [e];
    assert all[|events|] == e && forall i :: 0 <= i < |events| ==> all[i] == events[i];
    if forall i, j :: 0 <= i < j < |all| ==> !SameTx(all[i], all[j]) {
      forall i | 0 <= i < |events|
        ensures !SameTx(events[i], e)
      {
        assert !SameTx(all[i], all[|events|]);
      }
    }
  }

  lemma LogAppend(events: seq<Event>, e: Event, receipts: map<string, Receipt>, head: nat)
    ensures EventLogOk(events + [e], receipts, head) <==>
      && EventLogOk(events, receipts, head)
      && LastId(events) < e.id && e.head <= head && EventShapeOk(e, receipts)
      && forall i :: 0 <= i < |events| ==> !SameTx(events[i], e)
  {
    hide EventShapeOk, SameTx;
    IdsAppend(events, e);
    SameTxAppend(events, e);
    var all := events + [e];
    assert all[|events|] == e && forall i :: 0 <= i < |events| ==> all[i] == events[i];
  }

  /** Everything `WorldState::validate` checks before a world may be saved. */
  ghost predicate Valid(w: World, blake3: string -> string) {
    && AccountsOk(w.accounts)
    && ContractsOk(w.contracts, blake3)
    && EntitiesOk(w.accounts, w.contracts, w.entities, w.nextEntityId)
    && ProgressOk(w.entities, w.quests, w.progress)
    && ReceiptsOk(w.accounts, w.receipts)
    && EventsOk(w.events, w.receipts, w.head, w.nextEventId)
    && LocationsOk(w.entities)
    && QuestsOk(w.entities, w.quests)
    && InventoriesOk(w.entities, w.inventories)
  }
}
