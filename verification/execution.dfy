/**
 Executing a contract action and a signed transaction (src/runtime.rs), and the writes the
 RPC layer performs with them (src/rpc.rs), as functions of the world.
 */
module Execution {
  import opened Common
  import opened Text
  import opened Json
  import opened Model
  import opened HostOps

  datatype Transaction = Transaction(
    from: string, nonce: nat, entityId: nat, action: string, args: Json, signature: Option<string>)

  /**
   What a finished script did: its host calls in order, what it narrated, and its result,
   absent when the returned Lua value has no JSON form.
   */
  datatype Outcome = Failed | Finished(calls: seq<Call>, messages: seq<string>, result: Option<Json>)

  /**
   The foreign parts: the contract-source digest, the world digest behind the state root,
   the transaction digest, signature verification, the number serde reads from the text it
   prints for a float, and the Lua machine, which is deterministic: its outcome is a function
   of the world it starts from and the request.
   */
  datatype Env = Env(
    blake3: string -> string,
    digest: World -> string,
    txId: Transaction -> string,
    signed: (string, string, Transaction) -> bool,
    readFloat: real -> real,
    script: (World, nat, string, string, Json) -> Outcome)

  /** The state root leaves the receipts out. */
  function Root(env: Env, w: World): string {
    env.digest(w.(receipts := map[]))
  }

  // ---------- the change log of one command ----------

  ghost predicate IsSmallest(m: nat, s: set<nat>) {
    m in s && forall x :: x in s ==> m <= x
  }

  lemma {:induction false} HasSmallest(s: set<nat>)
    requires s != {}
    ensures exists m :: IsSmallest(m, s)
  {
    var k :| k in s;
    if s == {k} {
      assert IsSmallest(k, s);
    } else {
      HasSmallest(s - {k});
      var m :| IsSmallest(m, s - {k});
      assert forall x :: x in s ==> x == k || x in s - {k};
      assert IsSmallest(if k < m then k else m, s);
    }
  }

  /** The ids of a set in the order a sorted set iterates them. */
  ghost function AscendingIds(s: set<nat>): (ids: seq<nat>)
    ensures Elements(ids) == s
    ensures forall i, j :: 0 <= i < j < |ids| ==> ids[i] < ids[j]
  {
    if s == {} then []
    else
      HasSmallest(s);
      var m :| IsSmallest(m, s);
      var rest := AscendingIds(s - {m});
      assert forall i :: 0 <= i < |rest| ==> rest[i] in Elements(rest);
      ElementsAppend([m], rest);
      [m] + rest
  }

  function At<K, V>(m: map<K, V>, k: K): Option<V> {
    if k in m then Some(m[k]) else None
  }

  ghost function ChangedIds(before: World, after: World): set<nat> {
    set id | id in before.entities.Keys + after.entities.Keys && At(before.entities, id) != At(after.entities, id)
  }

  ghost function ChangedProgress(before: World, after: World): set<string> {
    set k | k in before.progress.Keys + after.progress.Keys && At(before.progress, k) != At(after.progress, k)
  }

  function ChangeName(before: World, after: World, id: nat): string {
    if id !in before.entities && id in after.entities then "created"
    else if id in before.entities && id !in after.entities then "deleted"
    else "updated"
  }

  function StatusName(status: QuestStatus): string {
    match status
    case Accepted => "accepted"
    case Completed => "completed"
  }

  function LogEntity(before: World, after: World, id: nat): World {
    Append(after, ENTITY_CHANGED, Some(id), Obj(map["change" := Str(ChangeName(before, after, id))]))
  }

  function LogEntities(before: World, after: World, ids: seq<nat>): World
    decreases |ids|
  {
    if ids == [] then after else LogEntities(before, LogEntity(before, after, ids[0]), ids[1..])
  }

  /** A key that the command removed would not be logged; no host call removes one. */
  function LogProgressEntry(after: World, key: string): World {
    if key in after.progress then
      var p := after.progress[key];
      var data := Obj(map["quest_id" := Str(p.questId), "status" := Str(StatusName(p.status))]);
      Append(after, PROGRESS_CHANGED, Some(p.actorId), data)
    else after
  }

  function LogProgress(after: World, keys: seq<string>): World
    decreases |keys|
  {
    if keys == [] then after else LogProgress(LogProgressEntry(after, keys[0]), keys[1..])
  }

  /** What a command writes after its script: the new head, the change events, its own event. */
  ghost function Conclude(before: World, scripted: World, id: nat, action: string): World {
    var after := scripted.(head := scripted.head + 1);
    var entities := LogEntities(before, after, AscendingIds(ChangedIds(before, after)));
    var progress := LogProgress(entities, SortedKeys(ChangedProgress(before, entities)));
    Append(progress, COMMAND_EXECUTED, Some(id), Obj(map["action" := Str(action)]))
  }

  // ---------- one execution ----------

  /** The world afterwards, and the receipt of a success. */
  datatype Executed = Executed(world: World, receipt: Option<Receipt>)

  function ContractSource(w: World, id: nat): Option<string> {
    if id in w.entities && w.entities[id].contract.Some? && w.entities[id].contract.value in w.contracts then
      Some(w.contracts[w.entities[id].contract.value].source)
    else None
  }

  /**
   `execute_internal`. A command publishes the script's world before the result is
   converted, so a result without a JSON form is an error that has already changed the world.
   */
  ghost function Execute(env: Env, w: World, id: nat, action: string, args: Json, command: bool): Executed {
    var source := ContractSource(w, id);
    if source.None? then Executed(w, None)
    else
      match env.script(w, id, source.value, action, args)
      case Failed => Executed(w, None)
      case Finished(calls, messages, result) =>
        var after := if command then Conclude(w, PerformAll(w, id, calls), id, action) else w;
        if result.None? then Executed(after, None)
        else Executed(after, Some(Receipt("", "", 0, true, messages, result.value, Root(env, after))))
  }

  predicate Authorized(env: Env, account: Account, tx: Transaction) {
    match account.publicKey
    case Some(key) => tx.signature.Some? && env.signed(key, tx.signature.value, tx)
    case None => tx.signature.None?
  }

  predicate Admissible(env: Env, w: World, tx: Transaction) {
    && tx.from in w.accounts
    && w.accounts[tx.from].nonce == tx.nonce
    && Authorized(env, w.accounts[tx.from], tx)
    && tx.entityId in w.entities
    && w.entities[tx.entityId].owner == tx.from
  }

  function TxData(txId: string, from: string, nonce: nat): Json {
    Obj(map["tx_id" := Str(txId), "from" := Str(from), "nonce" := Int(nonce)])
  }

  function BumpNonce(w: World, name: string): World
    requires name in w.accounts
  {
    w.(accounts := w.accounts[name := w.accounts[name].(nonce := w.accounts[name].nonce + 1)])
  }

  /** `execute_transaction_with_limits`. */
  ghost function ExecuteTransaction(env: Env, w: World, tx: Transaction): Executed {
    if !Admissible(env, w, tx) then Executed(w, None)
    else
      var done := Execute(env, w, tx.entityId, tx.action, tx.args, true);
      if done.receipt.None? || tx.from !in done.world.accounts then Executed(done.world, None)
      else
        var id := env.txId(tx);
        var data := TxData(id, tx.from, tx.nonce);
        var after := Append(BumpNonce(done.world, tx.from), TX_EXECUTED, Some(tx.entityId), data);
        Executed(after, Some(done.receipt.value.(txId := id, from := tx.from, nonce := tx.nonce,
                                                 stateRoot := Root(env, after))))
  }

  // ---------- the writes of the RPC layer ----------

  datatype Write =
    | CreateAccountWrite(name: string, publicKey: Option<string>, balance: nat)
    | DeployWrite(name: string, version: nat, source: string)
    | CreateEntityWrite(
        kind: Kind, owner: string, contract: Option<string>, location: Option<nat>, data: map<string, Json>)
    | CommandWrite(id: nat, action: string, args: Json)
    | TransactionWrite(tx: Transaction)

  /** The writes that run a contract. */
  predicate Executes(write: Write) {
    write.CommandWrite? || write.TransactionWrite?
  }

  function Request(write: Write): (nat, string, Json)
    requires Executes(write)
  {
    if write.CommandWrite? then (write.id, write.action, write.args)
    else (write.tx.entityId, write.tx.action, write.tx.args)
  }

  function CreateAccount(w: World, name: string, publicKey: Option<string>, balance: nat): Step {
    if name in w.accounts then Refuse(w)
    else Step(w.(accounts := w.accounts[name := Account(name, publicKey, 0, balance)], head := w.head + 1), true)
  }

  function Deploy(env: Env, w: World, name: string, version: nat, source: string): Step {
    if version == 0 || ContractKey(name, version) in w.contracts then Refuse(w)
    else
      Step(w.(contracts := w.contracts[ContractKey(name, version) :=
                             Contract(name, version, source, env.blake3(source), Published)],
              head := w.head + 1), true)
  }

  /** A write's effect on the in-memory world, before it is saved. */
  ghost function Mutate(env: Env, w: World, write: Write): Executed {
    match write
    case CreateAccountWrite(name, publicKey, balance) => Plain(env, CreateAccount(w, name, publicKey, balance))
    case DeployWrite(name, version, source) => Plain(env, Deploy(env, w, name, version, source))
    case CreateEntityWrite(kind, owner, contract, location, data) =>
      Plain(env, CreateEntity(w, kind, owner, contract, location, data))
    case CommandWrite(id, action, args) => Execute(env, w, id, action, args, true)
    case TransactionWrite(tx) =>
      var done := ExecuteTransaction(env, w, tx);
      match done.receipt
      case None => done
      case Some(r) => Executed(done.world.(receipts := done.world.receipts[r.txId := r]), Some(r))
  }

  /** An administrative write answers with the state root only. */
  function Plain(env: Env, step: Step): Executed {
    if step.ok then Executed(step.world, Some(Receipt("", "", 0, true, [], Null, Root(env, step.world))))
    else Executed(step.world, None)
  }

  /** `mutate_and_save` keeps a write only when mutation, validation and save all succeed. */
  ghost predicate Commits(env: Env, w: World, write: Write, saved: bool) {
    Mutate(env, w, write).receipt.Some? && saved && Valid(Mutate(env, w, write).world, env.blake3)
  }

  ghost function Commit(env: Env, w: World, write: Write, saved: bool): World {
    if Commits(env, w, write, saved) then Mutate(env, w, write).world else w
  }
}
