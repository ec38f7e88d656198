/**
 `execute_internal` and `execute_transaction_with_limits` (src/runtime.rs) step by step:
 the script runs on a copy, the copy is published, and the change events are pushed in
 order.
 */
module Executor {
  import opened Common
  import opened Text
  import opened Json
  import opened Model
  import opened HostOps
  import opened Execution
  import opened Runtime

  // ---------- sorted sets ----------

  function InsertId(id: nat, ids: seq<nat>): seq<nat> {
    if ids == [] || id < ids[0] then [id] + ids else [ids[0]] + InsertId(id, ids[1..])
  }

  predicate Rising(ids: seq<nat>) {
    forall i, j :: 0 <= i < j < |ids| ==> ids[i] < ids[j]
  }

  lemma {:induction false} InsertIdRises(id: nat, ids: seq<nat>)
    requires Rising(ids) && id !in ids
    ensures Rising(InsertId(id, ids)) && Elements(InsertId(id, ids)) == {id} + Elements(ids)
  {
    if ids == [] || id <= ids[0] {
    } else {
      InsertIdRises(id, ids[1..]);
      var rest := InsertId(id, ids[1..]);
      assert Elements(ids) == {ids[0]} + Elements(ids[1..]);
      forall i | 0 <= i < |rest|
        ensures ids[0] < rest[i]
      {
        assert rest[i] in Elements(rest);
      }
    }
  }

  lemma {:induction false} RisingUnique(a: seq<nat>, b: seq<nat>)
    requires Rising(a) && Rising(b) && Elements(a) == Elements(b)
    ensures a == b
  {
    if a == [] {
      if b != [] {
        HasElement(b);
      }
    } else {
      HasElement(a);
      assert a[0] in Elements(b) && b[0] in Elements(a);
      assert a[0] == b[0];
      forall x
        ensures x in Elements(a[1..]) <==> x in Elements(b[1..])
      {
        assert x in Elements(a) <==> x == a[0] || x in a[1..];
        assert x in Elements(b) <==> x == b[0] || x in b[1..];
      }
      RisingUnique(a[1..], b[1..]);
      assert a == [a[0]] + a[1..] && b == [b[0]] + b[1..];
    }
  }

  /** Collecting ids into a sorted set lists them in increasing order. */
  method SortIds(s: set<nat>) returns (ids: seq<nat>)
    ensures ids == AscendingIds(s)
  {
    ids := [];
    var left := s;
    while left != {}
      invariant left <= s && Rising(ids) && Elements(ids) == s - left
    {
      var id :| id in left;
      assert id !in Elements(ids);
      InsertIdRises(id, ids);
      ids := InsertId(id, ids);
      left := left - {id};
    }
    RisingUnique(ids, AscendingIds(s));
  }

  // ---------- the change log ----------

  method LogChangedEntities(state: WorldState, original: World)
    modifies state
    ensures state.View() ==
      LogEntities(original, old(state.View()), AscendingIds(ChangedIds(original, old(state.View()))))
  {
    ghost var before := state.View();
    var changed := set id | id in original.entities.Keys + state.entities.Keys
                            && At(original.entities, id) != At(state.entities, id);
    var ids := SortIds(changed);
    assert changed == ChangedIds(original, before);
    for n := 0 to |ids|
      invariant state.entities == before.entities
      invariant LogEntities(original, before, ids) == LogEntities(original, state.View(), ids[n..])
    {
      assert ids[n..][1..] == ids[n + 1..];
      var id := ids[n];
      var change := ChangeName(original, state.View(), id);
      state.PushEvent(ENTITY_CHANGED, Some(id), Obj(map["change" := Str(change)]));
    }
    assert ids[|ids|..] == [];
  }

  method PushProgress(state: WorldState, key: string)
    modifies state`events, state`nextEventId
    ensures state.View() == LogProgressEntry(old(state.View()), key)
  {
    if key in state.progress {
      var p := state.progress[key];
      var data := Obj(map["quest_id" := Str(p.questId), "status" := Str(StatusName(p.status))]);
      state.PushEvent(PROGRESS_CHANGED, Some(p.actorId), data);
    }
  }

  method LogChangedProgress(state: WorldState, original: World)
    modifies state
    ensures state.View() == LogProgress(old(state.View()), SortedKeys(ChangedProgress(original, old(state.View()))))
  {
    ghost var before := state.View();
    var changed := set k | k in original.progress.Keys + state.progress.Keys
                           && At(original.progress, k) != At(state.progress, k);
    var keys := SortKeys(changed);
    assert changed == ChangedProgress(original, before);
    LogProgressDone(state.View());
    hide LogProgress, LogProgressEntry, ChangedProgress, SortedKeys;
    assert keys[0..] == keys;
    for n := 0 to |keys|
      invariant LogProgress(before, keys) == LogProgress(state.View(), keys[n..])
    {
      LogProgressStep(state.View(), keys, n);
      PushProgress(state, keys[n]);
    }
    assert keys[|keys|..] == [];
    LogProgressDone(state.View());
  }

  lemma LogProgressStep(after: World, keys: seq<string>, n: nat)
    requires n < |keys|
    ensures LogProgress(after, keys[n..]) == LogProgress(LogProgressEntry(after, keys[n]), keys[n + 1..])
  {
    hide LogProgressEntry;
    assert keys[n..][1..] == keys[n + 1..];
  }

  lemma LogProgressDone(after: World)
    ensures LogProgress(after, []) == after
  {
  }

  // ---------- one execution ----------

  /** What a command does with the world its script left behind. */
  method Publish(state: WorldState, shared: WorldState, id: nat, action: string)
    requires state != shared
    modifies state
    ensures state.View() == Conclude(old(state.View()), shared.View(), id, action)
  {
    hide LogEntities, LogProgress, ChangedIds, ChangedProgress;
    var original := state.View();
    state.Assign(shared.View());
    state.head := state.head + 1;
    LogChangedEntities(state, original);
    LogChangedProgress(state, original);
    state.PushEvent(COMMAND_EXECUTED, Some(id), Obj(map["action" := Str(action)]));
  }

  method ExecuteInternal(env: Env, state: WorldState, id: nat, action: string, args: Json, command: bool)
    returns (receipt: Option<Receipt>)
    modifies state
    ensures Executed(state.View(), receipt) == Execute(env, old(state.View()), id, action, args, command)
  {
    hide Conclude, PerformAll;
    var original := state.View();
    if id !in state.entities || state.entities[id].contract.None? {
      return None;
    }
    var name := state.entities[id].contract.value;
    if name !in state.contracts {
      return None;
    }
    var source := state.contracts[name].source;
    var shared := new WorldState(original);
    var host := new Host(shared, id, command);
    match env.script(original, id, source, action, args)
    case Failed => return None;
    case Finished(calls, messages, result) =>
      host.Play(calls);
      if command {
        Publish(state, shared, id, action);
      } else {
        state.Assign(original);
      }
      if result.None? {
        return None;
      }
      return Some(Receipt("", "", 0, true, messages, result.value, Root(env, state.View())));
  }

  /** A signed transaction: checks first, then the command, then the nonce and the closing event. */
  method RunTransaction(env: Env, state: WorldState, tx: Transaction) returns (receipt: Option<Receipt>)
    modifies state
    ensures Executed(state.View(), receipt) == ExecuteTransaction(env, old(state.View()), tx)
  {
    hide Execute;
    if tx.from !in state.accounts || state.accounts[tx.from].nonce != tx.nonce {
      return None;
    }
    var account := state.accounts[tx.from];
    if account.publicKey.Some? {
      if tx.signature.None? || !env.signed(account.publicKey.value, tx.signature.value, tx) {
        return None;
      }
    } else if tx.signature.Some? {
      return None;
    }
    if tx.entityId !in state.entities || state.entities[tx.entityId].owner != tx.from {
      return None;
    }
    var done := ExecuteInternal(env, state, tx.entityId, tx.action, tx.args, true);
    if done.None? || tx.from !in state.accounts {
      return None;
    }
    account := state.accounts[tx.from];
    state.accounts := state.accounts[tx.from := account.(nonce := account.nonce + 1)];
    var id := env.txId(tx);
    state.PushEvent(TX_EXECUTED, Some(tx.entityId), TxData(id, tx.from, tx.nonce));
    return Some(done.value.(txId := id, from := tx.from, nonce := tx.nonce, stateRoot := Root(env, state.View())));
  }
}
