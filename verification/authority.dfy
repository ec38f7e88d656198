/**
 Who may change what: how far a script's authority reaches, which transactions are accepted
 and what their receipts say, and what no run of writes ever changes.
 */
module Authority {
  import opened Common
  import opened Text
  import opened Json
  import opened Model
  import opened HostOps
  import opened Execution
  import opened History
  import opened Receipts
  import opened ChangeLog

  // ---------- the reach of a script ----------

  /** Identity, kind, owner and contract never change; the data of an entity only for its owner. */
  ghost predicate KeptFor(a: Entity, b: Entity, owner: string) {
    && b.id == a.id && b.kind == a.kind && b.owner == a.owner && b.contract == a.contract
    && (b.data != a.data ==> a.owner == owner)
  }

  /** Entities that are new belong to `owner`, carry no contract, and have ids not used before. */
  ghost predicate NewFor(w: World, e: Entity, id: nat, owner: string) {
    e.owner == owner && e.contract.None? && w.nextEntityId <= id
  }

  /** Nobody gets poorer, and only `owner` richer. */
  ghost predicate RicherOnly(a: Account, b: Account, name: string, owner: string) {
    b == a.(balance := b.balance) && a.balance <= b.balance && (b.balance != a.balance ==> name == owner)
  }

  /** What a script may have done that ran for the entity `caller` of `owner`. */
  ghost predicate StaysOwn(w: World, after: World, caller: nat, owner: string) {
    && w.nextEntityId <= after.nextEntityId
    && (forall id :: id in w.entities && id in after.entities ==> KeptFor(w.entities[id], after.entities[id], owner))
    && (forall id :: id in after.entities && id !in w.entities ==> NewFor(w, after.entities[id], id, owner))
    && after.accounts.Keys == w.accounts.Keys
    && (forall a :: a in w.accounts ==> RicherOnly(w.accounts[a], after.accounts[a], a, owner))
    && (forall k :: At(w.progress, k) != At(after.progress, k) ==> OfActor(k, caller))
  }

  /** A progress key of this actor. */
  ghost predicate OfActor(key: string, actor: nat) {
    exists quest :: key == ProgressKey(actor, quest)
  }

  /** The caller, where it exists, is the owner's. */
  ghost predicate ActsFor(w: World, caller: nat, owner: string) {
    IdsBelow(w) && caller < w.nextEntityId && (caller in w.entities ==> w.entities[caller].owner == owner)
  }

  lemma StaysItself(w: World, caller: nat, owner: string)
    ensures StaysOwn(w, w, caller, owner)
  {
  }

  /** A call that rewrites one entity and perhaps inventories. */
  lemma OneEntityStays(w: World, after: World, id: nat, caller: nat, owner: string)
    requires ActsFor(w, caller, owner)
    requires after == w.(entities := after.entities, inventories := after.inventories)
    requires after.entities.Keys == w.entities.Keys
    requires forall k :: k in w.entities && k != id ==> after.entities[k] == w.entities[k]
    requires id in w.entities ==> KeptFor(w.entities[id], after.entities[id], owner)
    ensures StaysOwn(w, after, caller, owner) && ActsFor(after, caller, owner)
  {
  }

  lemma OneMoreStays(w: World, after: World, caller: nat, owner: string)
    requires ActsFor(w, caller, owner)
    requires after == w.(entities := after.entities, nextEntityId := w.nextEntityId + 1, head := after.head)
    requires after.entities.Keys == w.entities.Keys + {w.nextEntityId}
    requires forall k :: k in w.entities ==> after.entities[k] == w.entities[k]
    requires NewFor(w, after.entities[w.nextEntityId], w.nextEntityId, owner)
    ensures StaysOwn(w, after, caller, owner) && ActsFor(after, caller, owner)
  {
  }

  lemma SpawnStays(w: World, caller: nat, kind: string, location: Option<nat>, data: Json, owner: string)
    requires ActsFor(w, caller, owner)
    ensures StaysOwn(w, SpawnEntity(w, caller, kind, location, data).world, caller, owner)
    ensures ActsFor(SpawnEntity(w, caller, kind, location, data).world, caller, owner)
  {
    hide StaysOwn, ParseKind;
    var s := SpawnEntity(w, caller, kind, location, data);
    if s.ok {
      OneMoreStays(w, s.world, caller, owner);
    } else {
      StaysItself(w, caller, owner);
    }
  }

  lemma SameStays(w: World, after: World, caller: nat, owner: string)
    requires ActsFor(w, caller, owner) && after.entities == w.entities && after.nextEntityId == w.nextEntityId
    requires after.accounts.Keys == w.accounts.Keys
    requires forall a :: a in w.accounts ==> RicherOnly(w.accounts[a], after.accounts[a], a, owner)
    requires forall k :: At(w.progress, k) != At(after.progress, k) ==> OfActor(k, caller)
    ensures StaysOwn(w, after, caller, owner) && ActsFor(after, caller, owner)
  {
    hide OfActor;
  }

  lemma EntityCallStays(w: World, caller: nat, call: Call, owner: string)
    requires ActsFor(w, caller, owner)
    requires call.CallMoveActor? || call.CallTakeItem? || call.CallDropItem? || call.CallTransferItem?
      || call.CallMoveEntity? || call.CallUpdateEntityData?
    ensures StaysOwn(w, Perform(w, caller, call).world, caller, owner)
    ensures ActsFor(Perform(w, caller, call).world, caller, owner)
  {
    hide StaysOwn, RemoveFirst, Holds;
    var after := Perform(w, caller, call).world;
    match call
    case CallMoveActor(actor, zone) => OneEntityStays(w, after, actor, caller, owner);
    case CallTakeItem(item) => OneEntityStays(w, after, item, caller, owner);
    case CallDropItem(item) => OneEntityStays(w, after, item, caller, owner);
    case CallTransferItem(item, target) => OneEntityStays(w, after, item, caller, owner);
    case CallMoveEntity(id, place) => OneEntityStays(w, after, id, caller, owner);
    case CallUpdateEntityData(id, key, value) => OneEntityStays(w, after, id, caller, owner);
  }

  lemma OtherCallStays(w: World, caller: nat, call: Call, owner: string)
    requires ActsFor(w, caller, owner)
    requires call.CallEmitEvent? || call.CallAcceptQuest? || call.CallCreditBalance?
    ensures StaysOwn(w, Perform(w, caller, call).world, caller, owner)
    ensures ActsFor(Perform(w, caller, call).world, caller, owner)
  {
    hide StaysOwn, ProgressKey, Done;
    if call.CallAcceptQuest? {
      assert OfActor(ProgressKey(caller, call.quest), caller);
    }
    SameStays(w, Perform(w, caller, call).world, caller, owner);
  }

  lemma CallStaysOwn(w: World, caller: nat, call: Call, owner: string)
    requires ActsFor(w, caller, owner)
    ensures StaysOwn(w, Perform(w, caller, call).world, caller, owner)
    ensures ActsFor(Perform(w, caller, call).world, caller, owner)
  {
    hide StaysOwn, ActsFor;
    match call
    case CallCompleteQuest(quest) => CompletionStaysOwn(w, caller, quest, owner);
    case CallSpawnEntity(kind, location, data) => SpawnStays(w, caller, kind, location, data, owner);
    case CallEmitEvent(kind, id, data) => OtherCallStays(w, caller, call, owner);
    case CallAcceptQuest(quest, giver) => OtherCallStays(w, caller, call, owner);
    case CallCreditBalance(amount) => OtherCallStays(w, caller, call, owner);
    case CallMoveActor(actor, zone) => EntityCallStays(w, caller, call, owner);
    case CallTakeItem(item) => EntityCallStays(w, caller, call, owner);
    case CallDropItem(item) => EntityCallStays(w, caller, call, owner);
    case CallTransferItem(item, target) => EntityCallStays(w, caller, call, owner);
    case CallMoveEntity(id, place) => EntityCallStays(w, caller, call, owner);
    case CallUpdateEntityData(id, key, value) => EntityCallStays(w, caller, call, owner);
  }

  lemma FewerStay(w: World, after: World, caller: nat, owner: string)
    requires ActsFor(w, caller, owner) && after.nextEntityId == w.nextEntityId
    requires after.entities.Keys <= w.entities.Keys
    requires forall k :: k in after.entities ==> after.entities[k] == w.entities[k]
    requires after.accounts.Keys == w.accounts.Keys
    requires forall a :: a in w.accounts ==> RicherOnly(w.accounts[a], after.accounts[a], a, owner)
    requires forall k :: At(w.progress, k) != At(after.progress, k) ==> OfActor(k, caller)
    ensures StaysOwn(w, after, caller, owner) && ActsFor(after, caller, owner)
  {
    hide OfActor, RicherOnly;
  }

  lemma CompletionStaysOwn(w: World, caller: nat, quest: string, owner: string)
    requires ActsFor(w, caller, owner)
    ensures StaysOwn(w, CompleteQuest(w, caller, quest).world, caller, owner)
    ensures ActsFor(CompleteQuest(w, caller, quest).world, caller, owner)
  {
    hide StaysOwn, ProgressKey, FindNamed, RemoveAll, OfActor;
    KeyOfActor(caller, quest);
    FewerStay(w, CompleteQuest(w, caller, quest).world, caller, owner);
  }

  lemma KeyOfActor(actor: nat, quest: string)
    ensures OfActor(ProgressKey(actor, quest), actor)
  {
  }

  lemma StaysTransitive(a: World, b: World, c: World, caller: nat, owner: string)
    requires StaysOwn(a, b, caller, owner) && StaysOwn(b, c, caller, owner) && IdsBelow(a)
    ensures StaysOwn(a, c, caller, owner)
  {
    hide OfActor;
    forall id | id in a.entities && id in c.entities
      ensures KeptFor(a.entities[id], c.entities[id], owner)
    {
      assert id in b.entities;
      assert KeptFor(a.entities[id], b.entities[id], owner) && KeptFor(b.entities[id], c.entities[id], owner);
    }
    forall id | id in c.entities && id !in a.entities
      ensures NewFor(a, c.entities[id], id, owner)
    {
      if id in b.entities {
        assert NewFor(a, b.entities[id], id, owner) && KeptFor(b.entities[id], c.entities[id], owner);
      } else {
        assert NewFor(b, c.entities[id], id, owner);
      }
    }
    forall x | x in a.accounts
      ensures RicherOnly(a.accounts[x], c.accounts[x], x, owner)
    {
      assert RicherOnly(a.accounts[x], b.accounts[x], x, owner) && RicherOnly(b.accounts[x], c.accounts[x], x, owner);
    }
    forall k | At(a.progress, k) != At(c.progress, k)
      ensures OfActor(k, caller)
    {
      assert At(a.progress, k) != At(b.progress, k) || At(b.progress, k) != At(c.progress, k);
    }
  }

  /** Whatever a script calls, in any order and with any refusals, it stays within its owner's authority. */
  lemma {:induction false} ScriptStaysOwn(w: World, caller: nat, calls: seq<Call>, owner: string)
    requires ActsFor(w, caller, owner)
    ensures StaysOwn(w, PerformAll(w, caller, calls), caller, owner)
    decreases |calls|
  {
    hide StaysOwn, Perform;
    if calls == [] {
      StaysItself(w, caller, owner);
    } else {
      var next := Perform(w, caller, calls[0]).world;
      CallStaysOwn(w, caller, calls[0], owner);
      ScriptStaysOwn(next, caller, calls[1..], owner);
      StaysTransitive(w, next, PerformAll(w, caller, calls), caller, owner);
    }
  }

  /** A command leaves of other owners' entities all but their places, and of other accounts everything. */
  lemma CommandStaysOwn(env: Env, w: World, id: nat, action: string, args: Json)
    requires IdsBelow(w) && id in w.entities
    ensures StaysOwn(w, Execute(env, w, id, action, args, true).world, id, w.entities[id].owner)
  {
    hide Conclude, PerformAll, Root, StaysOwn, IdsBelow;
    StaysItself(w, id, w.entities[id].owner);
    if ContractSource(w, id).Some? && env.script(w, id, ContractSource(w, id).value, action, args).Finished? {
      CallsStayOwn(w, id, env.script(w, id, ContractSource(w, id).value, action, args).calls, action);
    }
  }

  lemma CallsStayOwn(w: World, id: nat, calls: seq<Call>, action: string)
    requires IdsBelow(w) && id in w.entities
    ensures StaysOwn(w, Conclude(w, PerformAll(w, id, calls), id, action), id, w.entities[id].owner)
  {
    hide Conclude, PerformAll, LogGrows, StaysOwn;
    var scripted := PerformAll(w, id, calls);
    ScriptStaysOwn(w, id, calls, w.entities[id].owner);
    ConcludeGrows(w, scripted, id, action);
    SameForAuthority(w, scripted, Conclude(w, scripted, id, action), id, w.entities[id].owner);
  }

  lemma SameForAuthority(w: World, a: World, b: World, caller: nat, owner: string)
    requires StaysOwn(w, a, caller, owner)
    requires b.entities == a.entities && b.accounts == a.accounts && b.progress == a.progress
    requires b.nextEntityId == a.nextEntityId
    ensures StaysOwn(w, b, caller, owner)
  {
    hide KeptFor, NewFor, RicherOnly, OfActor;
  }

  /** A query changes nothing. */
  lemma QueryChangesNothing(env: Env, w: World, id: nat, action: string, args: Json)
    ensures Execute(env, w, id, action, args, false).world == w
  {
  }

  // ---------- which requests succeed ----------

  /** The entity's contract, run on this world, comes to this result. */
  ghost predicate Returns(
    env: Env, w: World, id: nat, action: string, args: Json, messages: seq<string>, result: Json)
  {
    && id in w.entities && w.entities[id].contract.Some? && w.entities[id].contract.value in w.contracts
    && match env.script(w, id, w.contracts[w.entities[id].contract.value].source, action, args)
       case Failed => false
       case Finished(calls, said, value) => said == messages && value == Some(result)
  }

  ghost predicate Finishes(env: Env, w: World, id: nat, action: string, args: Json) {
    exists messages, result :: Returns(env, w, id, action, args, messages, result)
  }

  /** A command succeeds exactly if its entity's contract finishes with a result, which it answers. */
  lemma CommandSucceedsIff(env: Env, w: World, id: nat, action: string, args: Json)
    ensures var r := Execute(env, w, id, action, args, true).receipt;
      && (r.Some? <==> Finishes(env, w, id, action, args))
      && (r.Some? ==> Returns(env, w, id, action, args, r.value.messages, r.value.result) && r.value.ok)
  {
    hide Conclude, Root;
    var r := Execute(env, w, id, action, args, true).receipt;
    if r.Some? {
      assert Returns(env, w, id, action, args, r.value.messages, r.value.result);
    }
  }

  /** The sender has an account, signs with its key if it has one, spends the next nonce, and owns the entity. */
  ghost predicate ProperRequest(env: Env, w: World, tx: Transaction) {
    && tx.from in w.accounts && w.accounts[tx.from].nonce == tx.nonce
    && tx.entityId in w.entities && w.entities[tx.entityId].owner == tx.from
    && (w.accounts[tx.from].publicKey.Some? ==>
        tx.signature.Some? && env.signed(w.accounts[tx.from].publicKey.value, tx.signature.value, tx))
    && (w.accounts[tx.from].publicKey.None? ==> tx.signature.None?)
  }

  /** A transaction succeeds exactly if it is proper and its command would; its receipt says what it did. */
  lemma TransactionSucceedsIff(env: Env, w: World, tx: Transaction)
    ensures var r := Mutate(env, w, TransactionWrite(tx)).receipt;
      && (r.Some? <==> ProperRequest(env, w, tx) && Finishes(env, w, tx.entityId, tx.action, tx.args))
      && (r.Some? ==>
        && Returns(env, w, tx.entityId, tx.action, tx.args, r.value.messages, r.value.result)
        && r.value.ok && r.value.txId == env.txId(tx) && r.value.from == tx.from && r.value.nonce == tx.nonce)
  {
    hide Execute, Root;
    CommandSucceedsIff(env, w, tx.entityId, tx.action, tx.args);
    ExecuteKeepsHistory(env, w, tx.entityId, tx.action, tx.args, true);
  }

  /** Its effect stays within its sender's authority, and of the accounts only its sender's nonce is spent. */
  lemma TransactionStaysOwn(env: Env, w: World, tx: Transaction)
    requires IdsBelow(w) && Mutate(env, w, TransactionWrite(tx)).receipt.Some?
    ensures var after := Mutate(env, w, TransactionWrite(tx)).world;
      && tx.from in w.accounts && tx.from in after.accounts
      && after.accounts[tx.from].nonce == w.accounts[tx.from].nonce + 1
      && StaysOwn(w, after.(accounts := after.accounts[tx.from :=
           after.accounts[tx.from].(nonce := w.accounts[tx.from].nonce)]), tx.entityId, tx.from)
  {
    hide Execute, Root, StaysOwn;
    TransactionSucceedsIff(env, w, tx);
    TransactionWraps(env, w, tx);
    CommandStaysOwn(env, w, tx.entityId, tx.action, tx.args);
    ExecuteKeepsHistory(env, w, tx.entityId, tx.action, tx.args, true);
    var run := Execute(env, w, tx.entityId, tx.action, tx.args, true).world;
    var after := Mutate(env, w, TransactionWrite(tx)).world;
    var unspent := after.(accounts := after.accounts[tx.from :=
      after.accounts[tx.from].(nonce := w.accounts[tx.from].nonce)]);
    assert unspent.accounts == run.accounts;
    SameForAuthority(w, run, unspent, tx.entityId, tx.from);
  }

  // ---------- accounts and contracts ----------

  /** An account is opened once, under its name, with the key and balance given and nothing spent. */
  lemma CreateAccountMeans(env: Env, w: World, name: string, publicKey: Option<string>, balance: nat)
    ensures var done := Mutate(env, w, CreateAccountWrite(name, publicKey, balance));
      && (done.receipt.Some? <==> name !in w.accounts)
      && (if done.receipt.Some? then
            && done.world == w.(accounts := done.world.accounts, head := w.head + 1)
            && done.world.accounts.Keys == w.accounts.Keys + {name}
            && (forall a :: a in w.accounts ==> done.world.accounts[a] == w.accounts[a])
            && done.world.accounts[name].name == name && done.world.accounts[name].publicKey == publicKey
            && done.world.accounts[name].nonce == 0 && done.world.accounts[name].balance == balance
          else done.world == w)
  {
    hide Root;
  }

  /** A contract is deployed once per name and version, as it was sent, with the digest of its source. */
  lemma DeployMeans(env: Env, w: World, name: string, version: nat, source: string)
    ensures var done := Mutate(env, w, DeployWrite(name, version, source));
      var key := if version == 1 then name else name + "@" + Decimal(version);
      && (done.receipt.Some? <==> version >= 1 && key !in w.contracts)
      && (if done.receipt.Some? then
            && done.world == w.(contracts := done.world.contracts, head := w.head + 1)
            && done.world.contracts.Keys == w.contracts.Keys + {key}
            && (forall k :: k in w.contracts ==> done.world.contracts[k] == w.contracts[k])
            && done.world.contracts[key].name == name && done.world.contracts[key].version == version
            && done.world.contracts[key].source == source && done.world.contracts[key].sourceHash == env.blake3(source)
            && done.world.contracts[key].status == Published
          else done.world == w)
  {
    hide Root, Decimal;
  }

  // ---------- over runs ----------

  /** Accounts keep name and key, nonces never fall, and a deployed contract stays as it is. */
  ghost predicate Registered(w: World, after: World) {
    && (forall a :: a in w.accounts ==> a in after.accounts && KeyKept(w.accounts[a], after.accounts[a]))
    && (forall k :: k in w.contracts ==> k in after.contracts && after.contracts[k] == w.contracts[k])
  }

  ghost predicate KeyKept(a: Account, b: Account) {
    b.name == a.name && b.publicKey == a.publicKey && a.nonce <= b.nonce
  }

  lemma CommitKeepsRegistered(env: Env, w: World, write: Write, saved: bool)
    ensures Registered(w, Commit(env, w, write, saved))
  {
    hide Execute, Root, Valid;
    match write
    case CommandWrite(id, action, args) => ExecuteKeepsHistory(env, w, id, action, args, true);
    case TransactionWrite(tx) =>
      if Mutate(env, w, write).receipt.Some? {
        TransactionWraps(env, w, tx);
        ExecuteKeepsHistory(env, w, tx.entityId, tx.action, tx.args, true);
      }
    case _ =>
  }

  /** No run of writes ever changes an account's key or a deployed contract. */
  lemma {:induction false} RunKeepsRegistered(env: Env, w: World, writes: Script)
    ensures Registered(w, Run(env, w, writes))
  {
    hide Commit;
    if writes == [] {
    } else {
      var init, last := writes[..|writes| - 1], writes[|writes| - 1];
      RunKeepsRegistered(env, w, init);
      CommitKeepsRegistered(env, Run(env, w, init), last.0, last.1);
    }
  }

  /**
   Behind every receipt of a run from genesis is a request of the run that was proper in the
   world it met, signed with the key the account still has, whose contract came to the
   result recorded, and which stayed within its sender's authority.
   */
  ghost predicate Accountable(env: Env, writes: Script, k: nat, r: Receipt)
    requires k < |writes|
  {
    var before, after := Run(env, Genesis(), writes[..k]), Run(env, Genesis(), writes);
    && writes[k].0.TransactionWrite?
    && var tx := writes[k].0.tx;
       && r.txId == env.txId(tx) && r.from == tx.from && r.nonce == tx.nonce
       && ProperRequest(env, before, tx)
       && Returns(env, before, tx.entityId, tx.action, tx.args, r.messages, r.result)
       && tx.from in before.accounts && tx.from in after.accounts
       && after.accounts[tx.from].publicKey == before.accounts[tx.from].publicKey
  }

  lemma EveryReceiptIsAccountable(env: Env, writes: Script, id: string)
    requires id in Run(env, Genesis(), writes).receipts
    ensures exists k :: 0 <= k < |writes| && Accountable(env, writes, k, Run(env, Genesis(), writes).receipts[id])
  {
    hide Mutate, Commits, Returns, ProperRequest;
    EveryReceiptHasItsRoot(env, writes, id);
    var r := Run(env, Genesis(), writes).receipts[id];
    var k :| 0 <= k < |writes| && Wrote(env, writes, k, id, r);
    var before, tx := Run(env, Genesis(), writes[..k]), writes[k].0.tx;
    WroteMeans(env, writes, k, id, r);
    TransactionSucceedsIff(env, before, tx);
    RunSplits(env, Genesis(), writes, k);
    RunKeepsRegistered(env, before, writes[k..]);
    ProperSender(env, before, tx);
    assert Accountable(env, writes, k, r);
  }

  lemma WroteMeans(env: Env, writes: Script, k: nat, id: string, r: Receipt)
    requires k < |writes| && Wrote(env, writes, k, id, r)
    ensures writes[k].0.TransactionWrite?
    ensures Mutate(env, Run(env, Genesis(), writes[..k]), writes[k].0).receipt == Some(r)
  {
    hide Mutate, Valid;
  }

  lemma ProperSender(env: Env, w: World, tx: Transaction)
    requires ProperRequest(env, w, tx)
    ensures tx.from in w.accounts
  {
  }

  lemma {:induction false} RunSplits(env: Env, w: World, writes: Script, k: nat)
    requires k <= |writes|
    ensures Run(env, w, writes) == Run(env, Run(env, w, writes[..k]), writes[k..])
    decreases |writes|
  {
    hide Commit;
    if k == |writes| {
      assert writes[..k] == writes && writes[k..] == [];
    } else {
      var n := |writes| - 1;
      assert writes[..n][..k] == writes[..k] && writes[k..][..n - k] == writes[..n][k..];
      RunSplits(env, w, writes[..n], k);
    }
  }

  // ---------- balances ----------

  ghost predicate Affordable(w: World) {
    forall a :: a in w.accounts ==> w.accounts[a].balance <= MAX_U64
  }

  lemma CallKeepsAffordable(w: World, caller: nat, call: Call)
    requires Affordable(w)
    ensures Affordable(Perform(w, caller, call).world)
  {
    hide ProgressKey, FindNamed, RemoveAll, RemoveFirst;
  }

  lemma {:induction false} ScriptKeepsAffordable(w: World, caller: nat, calls: seq<Call>)
    requires Affordable(w)
    ensures Affordable(PerformAll(w, caller, calls))
    decreases |calls|
  {
    hide Perform, Affordable;
    if calls == [] {
    } else {
      CallKeepsAffordable(w, caller, calls[0]);
      ScriptKeepsAffordable(Perform(w, caller, calls[0]).world, caller, calls[1..]);
    }
  }

  lemma ExecuteKeepsAffordable(env: Env, w: World, id: nat, action: string, args: Json)
    requires Affordable(w)
    ensures Affordable(Execute(env, w, id, action, args, true).world)
  {
    hide Conclude, PerformAll, Root, Affordable;
    if ContractSource(w, id).Some? && env.script(w, id, ContractSource(w, id).value, action, args).Finished? {
      CommandKeepsAffordable(w, id, env.script(w, id, ContractSource(w, id).value, action, args).calls, action);
    }
  }

  lemma CommandKeepsAffordable(w: World, id: nat, calls: seq<Call>, action: string)
    requires Affordable(w)
    ensures Affordable(Conclude(w, PerformAll(w, id, calls), id, action))
  {
    hide Conclude, PerformAll, LogGrows;
    ScriptKeepsAffordable(w, id, calls);
    ConcludeGrows(w, PerformAll(w, id, calls), id, action);
  }

  lemma CommitKeepsAffordable(env: Env, w: World, write: Write, saved: bool)
    requires Affordable(w) && (write.CreateAccountWrite? ==> write.balance <= MAX_U64)
    ensures Affordable(Commit(env, w, write, saved))
  {
    hide Execute, Root, Valid;
    match write
    case CommandWrite(id, action, args) => ExecuteKeepsAffordable(env, w, id, action, args);
    case TransactionWrite(tx) =>
      if Mutate(env, w, write).receipt.Some? {
        TransactionWraps(env, w, tx);
        ExecuteKeepsAffordable(env, w, tx.entityId, tx.action, tx.args);
      }
    case _ =>
  }

  /** Over every run whose accounts are opened with 64-bit balances, no balance ever leaves 64 bits. */
  lemma {:induction false} BalancesFit(env: Env, writes: Script)
    requires forall i :: 0 <= i < |writes| ==>
      (writes[i].0.CreateAccountWrite? ==> writes[i].0.balance < 0x1_0000_0000_0000_0000)
    ensures var w := Run(env, Genesis(), writes);
      forall a :: a in w.accounts ==> w.accounts[a].balance < 0x1_0000_0000_0000_0000
  {
    hide Commit;
    if writes == [] {
    } else {
      var init, last := writes[..|writes| - 1], writes[|writes| - 1];
      BalancesFit(env, init);
      assert Affordable(Run(env, Genesis(), init));
      assert writes[|writes| - 1] == last;
      CommitKeepsAffordable(env, Run(env, Genesis(), init), last.0, last.1);
    }
  }
}
