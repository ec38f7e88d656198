/**
 What every write keeps: the event log only grows and stays exactly numbered, and
 accounts, receipts and quest definitions change only where a write says so.
 */
module History {
  import opened Common
  import opened Text
  import opened Json
  import opened Model
  import opened HostOps
  import opened Execution

  /** Event ids are exactly 1..n and event heads never decrease. */
  ghost predicate LogExact(w: World) {
    && w.nextEventId == |w.events| + 1
    && (forall i :: 0 <= i < |w.events| ==> w.events[i].id == i + 1 && w.events[i].head <= w.head)
    && (forall i, j :: 0 <= i < j < |w.events| ==> w.events[i].head <= w.events[j].head)
  }

  ghost function NewEvents(w: World, after: World): seq<Event> {
    if |w.events| <= |after.events| then after.events[|w.events|..] else []
  }

  ghost predicate LogGrows(w: World, after: World) {
    && w.events <= after.events
    && w.head <= after.head
    && (LogExact(w) ==> LogExact(after))
  }

  /** Same accounts up to balances, same receipts, contracts and quest definitions. */
  ghost predicate BooksKept(w: World, after: World) {
    && after.receipts == w.receipts && after.contracts == w.contracts && after.quests == w.quests
    && after.accounts.Keys == w.accounts.Keys
    && forall a :: a in w.accounts ==> after.accounts[a] == w.accounts[a].(balance := after.accounts[a].balance)
  }

  ghost predicate Unreserved(events: seq<Event>) {
    forall i :: 0 <= i < |events| ==> !Reserved(events[i].kind)
  }

  lemma AppendGrows(w: World, kind: string, entityId: Option<nat>, data: Json)
    ensures LogGrows(w, Append(w, kind, entityId, data))
    ensures NewEvents(w, Append(w, kind, entityId, data)) == [Event(w.nextEventId, w.head, kind, entityId, data)]
  {
  }

  lemma GrowsTransitive(a: World, b: World, c: World)
    requires LogGrows(a, b) && LogGrows(b, c)
    ensures LogGrows(a, c)
    ensures NewEvents(a, c) == NewEvents(a, b) + NewEvents(b, c)
  {
    assert c.events[|a.events|..|b.events|] == b.events[|a.events|..];
  }

  // ---------- scripts ----------

  lemma SameLog(w: World, after: World)
    requires after.events == w.events && after.nextEventId == w.nextEventId && w.head <= after.head
    ensures LogGrows(w, after) && NewEvents(w, after) == []
  {
  }

  lemma SameBooks(w: World)
    ensures BooksKept(w, w)
  {
  }

  lemma CreditKeepsBooks(w: World, account: string, amount: nat)
    ensures BooksKept(w, Credit(w, account, amount).world)
  {
  }

  lemma CompletionKeepsBooks(w: World, caller: nat, quest: string)
    ensures BooksKept(w, CompleteQuest(w, caller, quest).world)
  {
    if CompleteQuest(w, caller, quest).ok {
      CreditKeepsBooks(w, w.entities[caller].owner, w.quests[quest].reward);
    }
  }

  /** Only rewards and credits touch an account, and only its balance. */
  lemma CallKeepsBooks(w: World, caller: nat, call: Call)
    ensures BooksKept(w, Perform(w, caller, call).world)
  {
    match call
    case CallCompleteQuest(quest) => CompletionKeepsBooks(w, caller, quest);
    case CallCreditBalance(amount) =>
      if caller in w.entities {
        CreditKeepsBooks(w, w.entities[caller].owner, amount);
      }
    case _ =>
  }

  lemma CallKeepsHistory(w: World, caller: nat, call: Call)
    ensures LogGrows(w, Perform(w, caller, call).world)
    ensures Unreserved(NewEvents(w, Perform(w, caller, call).world))
  {
    if call.CallEmitEvent? && EmitEvent(w, call.kind, call.entityId, call.data).ok {
      AppendGrows(w, call.kind, call.entityId, call.data);
    } else {
      SameLog(w, Perform(w, caller, call).world);
    }
  }

  lemma {:induction false} ScriptKeepsHistory(w: World, caller: nat, calls: seq<Call>)
    ensures var after := PerformAll(w, caller, calls);
      LogGrows(w, after) && BooksKept(w, after) && Unreserved(NewEvents(w, after))
    decreases |calls|
  {
    if calls == [] {
    } else {
      var next := Perform(w, caller, calls[0]).world;
      CallKeepsBooks(w, caller, calls[0]);
      CallKeepsHistory(w, caller, calls[0]);
      ScriptKeepsHistory(next, caller, calls[1..]);
      GrowsTransitive(w, next, PerformAll(next, caller, calls[1..]));
    }
  }

  // ---------- the change events ----------

  /** Everything but the event log is as in `w`. */
  ghost predicate OnlyLog(w: World, after: World) {
    after == w.(events := after.events, nextEventId := after.nextEventId)
  }

  lemma {:induction false} LogEntitiesGrows(before: World, after: World, ids: seq<nat>)
    ensures var logged := LogEntities(before, after, ids); LogGrows(after, logged) && OnlyLog(after, logged)
    decreases |ids|
  {
    if ids == [] {
    } else {
      var next := LogEntity(before, after, ids[0]);
      AppendGrows(after, ENTITY_CHANGED, Some(ids[0]), Obj(map["change" := Str(ChangeName(before, after, ids[0]))]));
      LogEntitiesGrows(before, next, ids[1..]);
      GrowsTransitive(after, next, LogEntities(before, after, ids));
    }
  }

  lemma LogProgressEntryGrows(after: World, key: string)
    ensures var logged := LogProgressEntry(after, key); LogGrows(after, logged) && OnlyLog(after, logged)
    ensures key in after.progress ==> var p := after.progress[key];
      NewEvents(after, LogProgressEntry(after, key)) ==
      [Event(after.nextEventId, after.head, PROGRESS_CHANGED, Some(p.actorId),
             Obj(map["quest_id" := Str(p.questId), "status" := Str(StatusName(p.status))]))]
  {
  }

  lemma {:induction false} LogProgressGrows(after: World, keys: seq<string>)
    ensures var logged := LogProgress(after, keys); LogGrows(after, logged) && OnlyLog(after, logged)
    decreases |keys|
  {
    if keys == [] {
    } else {
      var next := LogProgressEntry(after, keys[0]);
      LogProgressEntryGrows(after, keys[0]);
      LogProgressGrows(next, keys[1..]);
      GrowsTransitive(after, next, LogProgress(after, keys));
    }
  }

  /** The stages of `Conclude`, named once for the lemmas about it. */
  ghost function Headed(scripted: World): World {
    scripted.(head := scripted.head + 1)
  }

  ghost function EntitiesLogged(before: World, scripted: World): World {
    LogEntities(before, Headed(scripted), AscendingIds(ChangedIds(before, Headed(scripted))))
  }

  ghost function ProgressLogged(before: World, scripted: World): World {
    var logged := EntitiesLogged(before, scripted);
    LogProgress(logged, SortedKeys(ChangedProgress(before, logged)))
  }

  lemma ConcludeEnds(before: World, scripted: World, id: nat, action: string)
    ensures Conclude(before, scripted, id, action) ==
      Append(ProgressLogged(before, scripted), COMMAND_EXECUTED, Some(id), Obj(map["action" := Str(action)]))
  {
    hide LogEntities, LogProgress, ChangedIds, ChangedProgress, Append;
  }

  lemma ConcludeGrows(before: World, scripted: World, id: nat, action: string)
    ensures var after := Conclude(before, scripted, id, action);
      LogGrows(scripted, after) && OnlyLog(Headed(scripted), after)
    ensures NewEvents(Headed(scripted), Conclude(before, scripted, id, action)) ==
      NewEvents(Headed(scripted), EntitiesLogged(before, scripted))
      + NewEvents(EntitiesLogged(before, scripted), ProgressLogged(before, scripted))
      + NewEvents(ProgressLogged(before, scripted), Conclude(before, scripted, id, action))
  {
    var h, e, p := Headed(scripted), EntitiesLogged(before, scripted), ProgressLogged(before, scripted);
    LogEntitiesGrows(before, h, AscendingIds(ChangedIds(before, h)));
    LogProgressGrows(e, SortedKeys(ChangedProgress(before, e)));
    AppendGrows(p, COMMAND_EXECUTED, Some(id), Obj(map["action" := Str(action)]));
    GrowsTransitive(h, e, p);
    GrowsTransitive(h, p, Conclude(before, scripted, id, action));
    assert LogGrows(scripted, h);
    GrowsTransitive(scripted, h, Conclude(before, scripted, id, action));
  }

  // ---------- executions and writes ----------

  lemma CommandKeepsHistory(w: World, id: nat, calls: seq<Call>, action: string)
    ensures var after := Conclude(w, PerformAll(w, id, calls), id, action);
      LogGrows(w, after) && BooksKept(w, after)
  {
    var scripted := PerformAll(w, id, calls);
    ScriptKeepsHistory(w, id, calls);
    ConcludeGrows(w, scripted, id, action);
    GrowsTransitive(w, scripted, Conclude(w, scripted, id, action));
  }

  lemma ExecuteKeepsHistory(env: Env, w: World, id: nat, action: string, args: Json, command: bool)
    ensures LogGrows(w, Execute(env, w, id, action, args, command).world)
    ensures BooksKept(w, Execute(env, w, id, action, args, command).world)
  {
    hide Conclude, LogGrows, BooksKept, Root;
    SameLog(w, w);
    SameBooks(w);
    var source := ContractSource(w, id);
    if source.Some? && command && env.script(w, id, source.value, action, args).Finished? {
      CommandKeepsHistory(w, id, env.script(w, id, source.value, action, args).calls, action);
    }
  }

  lemma TransactionKeepsHistory(env: Env, w: World, tx: Transaction)
    ensures LogGrows(w, ExecuteTransaction(env, w, tx).world)
  {
    hide Execute, LogGrows, Root;
    SameLog(w, w);
    if Admissible(env, w, tx) {
      ExecuteKeepsHistory(env, w, tx.entityId, tx.action, tx.args, true);
      var done := Execute(env, w, tx.entityId, tx.action, tx.args, true);
      if done.receipt.Some? && tx.from in done.world.accounts {
        var bumped := BumpNonce(done.world, tx.from);
        AppendGrows(bumped, TX_EXECUTED, Some(tx.entityId), TxData(env.txId(tx), tx.from, tx.nonce));
        SameLog(done.world, bumped);
        GrowsTransitive(w, done.world, bumped);
        GrowsTransitive(w, bumped, ExecuteTransaction(env, w, tx).world);
      }
    }
  }

  function TxEvent(env: Env, run: World, tx: Transaction): Event {
    Event(run.nextEventId, run.head, TX_EXECUTED, Some(tx.entityId), TxData(env.txId(tx), tx.from, tx.nonce))
  }

  /** What a transaction adds to the execution it wraps. */
  lemma TransactionWraps(env: Env, w: World, tx: Transaction)
    requires Mutate(env, w, TransactionWrite(tx)).receipt.Some?
    ensures var run := Execute(env, w, tx.entityId, tx.action, tx.args, true);
      var after := Mutate(env, w, TransactionWrite(tx)).world;
      && run.receipt.Some? && tx.from in run.world.accounts
      && after == run.world.(
        accounts := BumpNonce(run.world, tx.from).accounts,
        receipts := run.world.receipts[env.txId(tx) := Mutate(env, w, TransactionWrite(tx)).receipt.value],
        events := run.world.events + [TxEvent(env, run.world, tx)],
        nextEventId := run.world.nextEventId + 1)
  {
    hide Execute, Root;
  }

  /** Every write, saved or not, only extends the log, and keeps its numbering exact. */
  lemma CommitKeepsLog(env: Env, w: World, write: Write, saved: bool)
    ensures LogGrows(w, Commit(env, w, write, saved))
  {
    hide Execute, Root, Valid;
    SameLog(w, w);
    match write
    case CommandWrite(id, action, args) => ExecuteKeepsHistory(env, w, id, action, args, true);
    case TransactionWrite(tx) => TransactionKeepsHistory(env, w, tx);
    case _ =>
  }
}
