/**
 Quest progress and balances over whole runs: progress only rises, it implies every
 transitive prerequisite, and every reward is paid exactly once.
 */
module QuestRewards {
  import opened Common
  import opened Json
  import opened QuestGraph
  import opened Model
  import opened HostOps
  import opened HostValidity
  import opened Execution
  import opened History
  import opened Receipts

  // ---------- sums over quest progress ----------

  ghost function Sum(s: set<string>, f: string -> nat): nat {
    if s == {} then 0
    else
      var k :| k in s;
      f(k) + Sum(s - {k}, f)
  }

  lemma {:induction false} SumRemove(s: set<string>, f: string -> nat, k: string)
    requires k in s
    ensures Sum(s, f) == f(k) + Sum(s - {k}, f)
  {
    var x :| x in s && Sum(s, f) == f(x) + Sum(s - {x}, f);
    if x == k {
    } else {
      SumRemove(s - {x}, f, k);
      SumRemove(s - {k}, f, x);
      assert s - {x} - {k} == s - {k} - {x};
    }
  }

  lemma {:induction false} SumSame(s: set<string>, f: string -> nat, g: string -> nat)
    requires forall k :: k in s ==> f(k) == g(k)
    ensures Sum(s, f) == Sum(s, g)
  {
    if s == {} {
    } else {
      var k :| k in s;
      SumRemove(s, f, k);
      SumRemove(s, g, k);
      SumSame(s - {k}, f, g);
    }
  }

  /** The reward that progress entry `k` has brought to account `a`. */
  ghost function Paid(w: World, a: string, k: string): nat {
    if k !in w.progress then 0
    else
      var p := w.progress[k];
      if p.status == Completed && p.actorId in w.entities && w.entities[p.actorId].owner == a && p.questId in w.quests
      then w.quests[p.questId].reward
      else 0
  }

  ghost function PaidTo(w: World, a: string): string -> nat {
    k => Paid(w, a, k)
  }

  /** The rewards of all (actor, quest) pairs completed by actors that `a` owns. */
  ghost function Earned(w: World, a: string): nat {
    Sum(w.progress.Keys, PaidTo(w, a))
  }

  function Balance(w: World, a: string): nat {
    if a in w.accounts then w.accounts[a].balance else 0
  }

  // ---------- what holds in the middle of a script ----------

  ghost predicate EntryOk(w: World, k: string)
    requires k in w.progress
  {
    var p := w.progress[k];
    k == ProgressKey(p.actorId, p.questId) && IsA(w.entities, p.actorId, Actor) && p.questId in w.quests
  }

  /**
   Weaker than validity: it also survives `spawn_entity` and `move_entity`, which may
   leave locations and inventories inconsistent until the script ends.
   */
  ghost predicate Sound(w: World) {
    && (forall k {:trigger EntryOk(w, k)} :: k in w.progress ==> EntryOk(w, k))
    && (forall id :: id in w.entities ==> id < w.nextEntityId)
    && (forall o: nat, i: nat {:trigger Holds(w.inventories, o, i)} :: Holds(w.inventories, o, i) ==>
      i < w.nextEntityId && (i in w.entities ==> w.entities[i].kind == Item))
  }

  lemma ValidIsSound(w: World, blake3: string -> string)
    requires Valid(w, blake3)
    ensures Sound(w)
  {
    forall k | k in w.progress
      ensures EntryOk(w, k)
    {
    }
  }

  /** A caller that is not an actor has quest progress: no such world is ever saved. */
  ghost predicate Doomed(w: World, caller: nat) {
    && caller < w.nextEntityId && !IsA(w.entities, caller, Actor)
    && exists k :: k in w.progress && w.progress[k].actorId == caller
  }

  lemma DoomedIsInvalid(w: World, caller: nat, blake3: string -> string)
    requires Doomed(w, caller)
    ensures !Valid(w, blake3)
  {
  }

  // ---------- entities keep kind and owner ----------

  lemma {:induction false} RemoveOnlyRemoves(items: seq<nat>, item: nat)
    ensures forall i :: i in RemoveFirst(items, item) ==> i in items
    ensures forall i :: i in RemoveAll(items, item) ==> i in items
  {
    if items == [] {
    } else {
      RemoveOnlyRemoves(items[1..], item);
    }
  }

  /** Identity of entities across a call: kinds and owners are fixed, only held items vanish. */
  ghost predicate SameIdentity(w: World, after: World) {
    && w.nextEntityId <= after.nextEntityId
    && (forall id :: id in w.entities && id in after.entities ==>
      after.entities[id].kind == w.entities[id].kind && after.entities[id].owner == w.entities[id].owner)
    && (forall id :: id in w.entities && id !in after.entities ==> w.entities[id].kind == Item)
    && (forall id :: id in after.entities && id !in w.entities ==> id == w.nextEntityId < after.nextEntityId)
  }

  /** Completing a quest removes at most one entity, and that is a carried item. */
  lemma CompletionConsumes(w: World, caller: nat, quest: string)
    requires Sound(w)
    ensures var after := CompleteQuest(w, caller, quest).world;
      after.nextEntityId == w.nextEntityId
      && (after.entities == w.entities
          || exists i: nat :: IsA(w.entities, i, Item) && after.entities == w.entities - {i})
  {
    if CompleteQuest(w, caller, quest).ok {
      var items, name := Items(w.inventories, caller), w.quests[quest].requiredItem;
      FindNamedFinds(w.entities, items, name);
      FindNamedExists(w.entities, items, name);
      var item := FindNamed(w.entities, items, name).value;
      assert Holds(w.inventories, caller, item) && IsA(w.entities, item, Item);
    }
  }

  lemma {:induction false} FindNamedExists(entities: map<nat, Entity>, items: seq<nat>, name: string)
    ensures FindNamed(entities, items, name).Some? ==> FindNamed(entities, items, name).value in entities
  {
    if items == [] {
    } else {
      FindNamedExists(entities, items[1..], name);
    }
  }

  lemma CallKeepsIdentity(w: World, caller: nat, call: Call)
    requires Sound(w)
    ensures SameIdentity(w, Perform(w, caller, call).world)
  {
    if call.CallCompleteQuest? {
      CompletionConsumes(w, caller, call.quest);
    } else {
      OtherCallsKeepIdentity(w, caller, call);
    }
  }

  /** Editing one entity's location or data keeps its identity. */
  lemma EditKeepsIdentity(w: World, after: World, id: nat)
    requires id in w.entities && id in after.entities && after.nextEntityId == w.nextEntityId
    requires after.entities == w.entities[id := after.entities[id]]
    requires after.entities[id].kind == w.entities[id].kind && after.entities[id].owner == w.entities[id].owner
    ensures SameIdentity(w, after)
  {
  }

  lemma SpawnKeepsIdentity(w: World, caller: nat, kind: string, location: Option<nat>, data: Json)
    requires forall id :: id in w.entities ==> id < w.nextEntityId
    ensures SameIdentity(w, SpawnEntity(w, caller, kind, location, data).world)
  {
  }

  lemma OtherCallsKeepIdentity(w: World, caller: nat, call: Call)
    requires !call.CallCompleteQuest?
    requires forall id :: id in w.entities ==> id < w.nextEntityId
    ensures SameIdentity(w, Perform(w, caller, call).world)
  {
    var after := Perform(w, caller, call).world;
    if call.CallSpawnEntity? {
      SpawnKeepsIdentity(w, caller, call.kind, call.location, call.data);
    } else if after.entities == w.entities {
    } else {
      hide SameIdentity;
      var id := if call.CallMoveActor? then call.actor
        else if call.CallMoveEntity? || call.CallUpdateEntityData? then call.id
        else call.item;
      EditKeepsIdentity(w, after, id);
    }
  }

  /** Inventories only ever gain items that exist. */
  lemma CallHolds(w: World, caller: nat, call: Call, o: nat, i: nat)
    requires Holds(Perform(w, caller, call).world.inventories, o, i)
    ensures Holds(w.inventories, o, i) || IsA(w.entities, i, Item)
  {
    match call
    case CallTakeItem(item) =>
    case CallDropItem(item) => RemoveOnlyRemoves(Items(w.inventories, caller), item);
    case CallTransferItem(item, target) => RemoveOnlyRemoves(Items(w.inventories, caller), item);
    case CallCompleteQuest(quest) =>
      if CompleteQuest(w, caller, quest).ok {
        var found := FindNamed(w.entities, Items(w.inventories, caller), w.quests[quest].requiredItem);
        RemoveOnlyRemoves(Items(w.inventories, caller), found.value);
      }
    case _ => assert Perform(w, caller, call).world.inventories == w.inventories;
  }

  lemma CallKeepsHeldSound(w: World, caller: nat, call: Call)
    requires Sound(w)
    ensures var after := Perform(w, caller, call).world;
      forall o: nat, i: nat {:trigger Holds(after.inventories, o, i)} :: Holds(after.inventories, o, i) ==>
        i < after.nextEntityId && (i in after.entities ==> after.entities[i].kind == Item)
  {
    CallKeepsIdentity(w, caller, call);
    var after := Perform(w, caller, call).world;
    hide Perform;
    forall o: nat, i: nat | Holds(after.inventories, o, i)
      ensures i < after.nextEntityId && (i in after.entities ==> after.entities[i].kind == Item)
    {
      CallHolds(w, caller, call, o, i);
    }
  }

  // ---------- progress ----------

  /** Progress entries are never lost or rewritten; a status only rises. */
  ghost predicate Rises(w: World, after: World) {
    && after.quests == w.quests
    && forall k :: k in w.progress ==>
      && k in after.progress
      && after.progress[k].questId == w.progress[k].questId && after.progress[k].actorId == w.progress[k].actorId
      && (w.progress[k].status == Completed ==> after.progress[k].status == Completed)
  }

  /** One call starts progress as Accepted, or turns Accepted into Completed, or leaves it. */
  lemma CallRaisesProgress(w: World, caller: nat, call: Call)
    ensures var after := Perform(w, caller, call).world;
      && Rises(w, after)
      && (forall k :: k in after.progress && k !in w.progress ==> after.progress[k].status == Accepted)
  {
  }

  lemma CallKeepsEntries(w: World, caller: nat, call: Call)
    requires Sound(w)
    requires IsA(w.entities, caller, Actor) || !Perform(w, caller, call).ok || !call.CallAcceptQuest?
    ensures var after := Perform(w, caller, call).world;
      forall k {:trigger EntryOk(after, k)} :: k in after.progress ==> EntryOk(after, k)
  {
    var after := Perform(w, caller, call).world;
    CallKeepsIdentity(w, caller, call);
    CallRaisesProgress(w, caller, call);
    forall k | k in after.progress
      ensures EntryOk(after, k)
    {
      if k in w.progress {
        assert EntryOk(w, k);
      } else {
        assert k == ProgressKey(caller, call.quest) && after.progress[k] == Progress(call.quest, caller, Accepted);
      }
    }
  }

  lemma CallKeepsSound(w: World, caller: nat, call: Call)
    requires Sound(w) && caller < w.nextEntityId
    ensures Sound(Perform(w, caller, call).world) || Doomed(Perform(w, caller, call).world, caller)
  {
    var after := Perform(w, caller, call).world;
    CallKeepsIdentity(w, caller, call);
    if call.CallAcceptQuest? && AcceptQuest(w, caller, call.quest, call.giver).ok && !IsA(w.entities, caller, Actor) {
      assert after.progress[ProgressKey(caller, call.quest)].actorId == caller;
    } else {
      CallKeepsHeldSound(w, caller, call);
      CallKeepsEntries(w, caller, call);
    }
  }

  lemma CallKeepsDoomed(w: World, caller: nat, call: Call)
    requires Doomed(w, caller)
    ensures Doomed(Perform(w, caller, call).world, caller)
  {
    CallRaisesProgress(w, caller, call);
    var k :| k in w.progress && w.progress[k].actorId == caller;
    assert k in Perform(w, caller, call).world.progress;
  }

  // ---------- balances ----------

  /** What an explicit `credit_balance` call adds to account `a`. */
  ghost function Credited(w: World, caller: nat, call: Call, a: string): nat {
    if call.CallCreditBalance? && CreditBalance(w, caller, call.amount).ok && w.entities[caller].owner == a
    then call.amount else 0
  }

  lemma PaidKept(w: World, after: World, a: string, k: string)
    requires SameIdentity(w, after) && after.quests == w.quests
    requires k in w.progress && EntryOk(w, k) && k in after.progress && after.progress[k] == w.progress[k]
    ensures Paid(after, a, k) == Paid(w, a, k)
  {
  }

  lemma EarnedKept(w: World, after: World, a: string)
    requires Sound(w) && SameIdentity(w, after) && after.quests == w.quests && after.progress == w.progress
    ensures Earned(after, a) == Earned(w, a)
  {
    forall k | k in w.progress.Keys
      ensures PaidTo(after, a)(k) == PaidTo(w, a)(k)
    {
      assert EntryOk(w, k);
      PaidKept(w, after, a, k);
    }
    SumSame(w.progress.Keys, PaidTo(after, a), PaidTo(w, a));
  }

  /** Changing one entry changes the sum by that entry's pay. */
  lemma EarnedChanged(w: World, after: World, a: string, key: string)
    requires Sound(w) && SameIdentity(w, after) && after.quests == w.quests
    requires key in after.progress && after.progress == w.progress[key := after.progress[key]]
    ensures Earned(after, a) + Paid(w, a, key) == Earned(w, a) + Paid(after, a, key)
  {
    var rest := w.progress.Keys - {key};
    forall k | k in rest
      ensures PaidTo(after, a)(k) == PaidTo(w, a)(k)
    {
      assert EntryOk(w, k);
      PaidKept(w, after, a, k);
    }
    SumSame(rest, PaidTo(after, a), PaidTo(w, a));
    SumRemove(after.progress.Keys, PaidTo(after, a), key);
    assert after.progress.Keys - {key} == rest;
    if key in w.progress {
      SumRemove(w.progress.Keys, PaidTo(w, a), key);
    } else {
      assert w.progress.Keys == rest;
    }
  }

  /** What account `a` gets when `caller` completes `quest`. */
  ghost function Share(w: World, caller: nat, quest: string, a: string): nat
    requires quest in w.quests && caller in w.entities
  {
    if a == w.entities[caller].owner then w.quests[quest].reward else 0
  }

  lemma CompletionShape(w: World, caller: nat, quest: string)
    requires CompleteQuest(w, caller, quest).ok
    ensures var after := CompleteQuest(w, caller, quest).world;
      var key := ProgressKey(caller, quest);
      && quest in w.quests && caller in w.entities && w.entities[caller].owner in w.accounts
      && after.quests == w.quests
      && key in w.progress && w.progress[key].status == Accepted
      && after.progress == w.progress[key := w.progress[key].(status := Completed)]
      && (forall a :: Balance(after, a) == Balance(w, a) + Share(w, caller, quest, a))
  {
  }

  /** A completed quest pays its reward to the actor's owner, once, and nobody else. */
  lemma CompletionPays(w: World, caller: nat, quest: string, a: string)
    requires Sound(w) && CompleteQuest(w, caller, quest).ok
    ensures var after := CompleteQuest(w, caller, quest).world;
      Balance(after, a) + Earned(w, a) == Balance(w, a) + Earned(after, a)
  {
    var after, key := CompleteQuest(w, caller, quest).world, ProgressKey(caller, quest);
    CompletionShape(w, caller, quest);
    CallKeepsIdentity(w, caller, CallCompleteQuest(quest));
    CompletionKey(w, caller, quest);
    hide Sound, SameIdentity, Earned, Paid, Share, Balance, CompleteQuest, ProgressKey;
    CompletedPay(w, after, caller, quest, a);
    EarnedChanged(w, after, a, key);
  }

  /** The progress entry of an accepted quest names the actor and the quest. */
  lemma CompletionKey(w: World, caller: nat, quest: string)
    requires Sound(w) && ProgressKey(caller, quest) in w.progress
    ensures IsA(w.entities, caller, Actor)
    ensures var p := w.progress[ProgressKey(caller, quest)]; p.actorId == caller && p.questId == quest
  {
    var key := ProgressKey(caller, quest);
    assert EntryOk(w, key);
    ProgressKeyInjective(caller, quest, w.progress[key].actorId, w.progress[key].questId);
  }

  lemma CompletedPay(w: World, after: World, caller: nat, quest: string, a: string)
    requires SameIdentity(w, after) && IsA(w.entities, caller, Actor)
    requires after.quests == w.quests && quest in w.quests
    requires var key := ProgressKey(caller, quest);
      && key in w.progress && w.progress[key] == Progress(quest, caller, Accepted)
      && key in after.progress && after.progress[key] == Progress(quest, caller, Completed)
    ensures Paid(w, a, ProgressKey(caller, quest)) == 0
    ensures Paid(after, a, ProgressKey(caller, quest)) == Share(w, caller, quest, a)
  {
  }

  lemma CallAccounts(w: World, caller: nat, call: Call, a: string)
    requires Sound(w)
    ensures var after := Perform(w, caller, call).world;
      Balance(after, a) + Earned(w, a) == Balance(w, a) + Credited(w, caller, call, a) + Earned(after, a)
  {
    hide Sound, SameIdentity, Earned, Rises;
    var step := Perform(w, caller, call);
    if step.world.progress == w.progress {
      CallKeepsIdentity(w, caller, call);
      CallKeepsBooks(w, caller, call);
      EarnedKept(w, step.world, a);
    } else if call.CallCompleteQuest? {
      CompletionPays(w, caller, call.quest, a);
    } else {
      CallKeepsIdentity(w, caller, call);
      EarnedChanged(w, step.world, a, ProgressKey(caller, call.quest));
    }
  }

  // ---------- scripts ----------

  ghost function ScriptCredits(w: World, caller: nat, calls: seq<Call>, a: string): nat
    decreases |calls|
  {
    if calls == [] then 0
    else Credited(w, caller, calls[0], a) + ScriptCredits(Perform(w, caller, calls[0]).world, caller, calls[1..], a)
  }

  lemma {:induction false} DoomedScript(w: World, caller: nat, calls: seq<Call>)
    requires Doomed(w, caller)
    ensures Doomed(PerformAll(w, caller, calls), caller)
    decreases |calls|
  {
    if calls == [] {
    } else {
      CallKeepsDoomed(w, caller, calls[0]);
      DoomedScript(Perform(w, caller, calls[0]).world, caller, calls[1..]);
    }
  }

  lemma {:induction false} ScriptAccounts(w: World, caller: nat, calls: seq<Call>, a: string)
    requires Sound(w) && caller < w.nextEntityId
    ensures var after := PerformAll(w, caller, calls);
      Doomed(after, caller)
      || Balance(after, a) + Earned(w, a) == Balance(w, a) + ScriptCredits(w, caller, calls, a) + Earned(after, a)
    decreases |calls|
  {
    if calls == [] {
    } else {
      var next := Perform(w, caller, calls[0]).world;
      CallAccounts(w, caller, calls[0], a);
      CallKeepsSound(w, caller, calls[0]);
      CallKeepsIdentity(w, caller, calls[0]);
      if Sound(next) {
        ScriptAccounts(next, caller, calls[1..], a);
      } else {
        DoomedScript(next, caller, calls[1..]);
      }
    }
  }

  lemma {:induction false} ScriptRaisesProgress(w: World, caller: nat, calls: seq<Call>)
    ensures Rises(w, PerformAll(w, caller, calls))
    decreases |calls|
  {
    if calls == [] {
    } else {
      CallRaisesProgress(w, caller, calls[0]);
      ScriptRaisesProgress(Perform(w, caller, calls[0]).world, caller, calls[1..]);
    }
  }

  // ---------- prerequisites ----------

  ghost predicate PrerequisitesDone(w: World, k: string)
    requires k in w.progress
  {
    var p := w.progress[k];
    k == ProgressKey(p.actorId, p.questId) && p.questId in w.quests
    && forall q :: q in w.quests[p.questId].prerequisites ==> Done(w, p.actorId, q)
  }

  /** Progress on a quest implies its direct prerequisites are completed by that actor. */
  ghost predicate Ordered(w: World) {
    forall k {:trigger PrerequisitesDone(w, k)} :: k in w.progress ==> PrerequisitesDone(w, k)
  }

  lemma CallKeepsOrdered(w: World, caller: nat, call: Call)
    requires Ordered(w)
    ensures Ordered(Perform(w, caller, call).world)
  {
    var after := Perform(w, caller, call).world;
    CallRaisesProgress(w, caller, call);
    forall k | k in after.progress
      ensures PrerequisitesDone(after, k)
    {
      if k in w.progress {
        assert PrerequisitesDone(w, k);
      } else {
        assert k == ProgressKey(caller, call.quest) && after.progress[k] == Progress(call.quest, caller, Accepted);
        assert forall q :: q in w.quests[call.quest].prerequisites ==> Done(w, caller, q);
      }
    }
  }

  lemma {:induction false} ScriptKeepsOrdered(w: World, caller: nat, calls: seq<Call>)
    requires Ordered(w)
    ensures Ordered(PerformAll(w, caller, calls))
    decreases |calls|
  {
    if calls == [] {
    } else {
      CallKeepsOrdered(w, caller, calls[0]);
      ScriptKeepsOrdered(Perform(w, caller, calls[0]).world, caller, calls[1..]);
    }
  }

  /** Following prerequisites from a quest in progress meets only completed quests. */
  lemma {:induction false} TransitivePrerequisites(w: World, actor: nat, path: seq<string>, i: nat)
    requires Ordered(w) && Walk(Prerequisites(w.quests), path)
    requires path != [] && ProgressKey(actor, path[0]) in w.progress
    requires 0 < i < |path|
    ensures Done(w, actor, path[i])
  {
    var key := ProgressKey(actor, path[i - 1]);
    if i == 1 {
    } else {
      TransitivePrerequisites(w, actor, path, i - 1);
    }
    assert PrerequisitesDone(w, key);
    ProgressKeyInjective(actor, path[i - 1], w.progress[key].actorId, w.progress[key].questId);
    assert path[i] in Prerequisites(w.quests)[path[i - 1]];
  }

  // ---------- runs of writes ----------

  /** Money a write brings in other than by quest rewards. */
  ghost function WriteDeposits(env: Env, w: World, write: Write, a: string): nat {
    match write
    case CreateAccountWrite(name, publicKey, balance) => if name == a then balance else 0
    case CommandWrite(id, action, args) => ScriptDeposits(env, w, id, action, args, a)
    case TransactionWrite(tx) => ScriptDeposits(env, w, tx.entityId, tx.action, tx.args, a)
    case _ => 0
  }

  ghost function Deposited(env: Env, w: World, write: Write, saved: bool, a: string): nat {
    if Commits(env, w, write, saved) then WriteDeposits(env, w, write, a) else 0
  }

  ghost function ScriptDeposits(env: Env, w: World, id: nat, action: string, args: Json, a: string): nat {
    var source := ContractSource(w, id);
    if source.None? then 0
    else
      match env.script(w, id, source.value, action, args)
      case Failed => 0
      case Finished(calls, messages, result) => ScriptCredits(w, id, calls, a)
  }

  ghost function Deposits(env: Env, w: World, writes: Script, a: string): nat {
    if writes == [] then 0
    else
      var init, last := writes[..|writes| - 1], writes[|writes| - 1];
      Deposits(env, w, init, a) + Deposited(env, Run(env, w, init), last.0, last.1, a)
  }

  ghost predicate Balanced(w: World, after: World, deposits: nat, a: string) {
    Balance(after, a) + Earned(w, a) == Balance(w, a) + deposits + Earned(after, a)
  }

  lemma EarnedSame(w: World, after: World, a: string)
    requires after.entities == w.entities && after.quests == w.quests && after.progress == w.progress
    ensures Earned(after, a) == Earned(w, a)
  {
    SumSame(w.progress.Keys, PaidTo(after, a), PaidTo(w, a));
  }

  lemma OrderedSame(w: World, after: World)
    requires Ordered(w) && after.quests == w.quests && after.progress == w.progress
    ensures Ordered(after)
  {
    forall k | k in after.progress
      ensures PrerequisitesDone(after, k)
    {
      assert PrerequisitesDone(w, k);
    }
  }

  lemma WrappedAccounts(w: World, run: World, after: World, id: nat, deposits: nat, a: string)
    requires after.entities == run.entities && after.progress == run.progress && after.quests == run.quests
    requires after.nextEntityId == run.nextEntityId && Balance(after, a) == Balance(run, a)
    requires Doomed(run, id) || Balanced(w, run, deposits, a)
    requires Rises(w, run) && (Ordered(w) ==> Ordered(run))
    ensures Doomed(after, id) || Balanced(w, after, deposits, a)
    ensures Rises(w, after) && (Ordered(w) ==> Ordered(after))
  {
    EarnedSame(run, after, a);
    if Ordered(run) {
      OrderedSame(run, after);
    }
  }

  lemma ConcludedAccounts(w: World, scripted: World, id: nat, action: string, deposits: nat, a: string)
    requires Doomed(scripted, id) || Balanced(w, scripted, deposits, a)
    requires Rises(w, scripted) && (Ordered(w) ==> Ordered(scripted))
    ensures var after := Conclude(w, scripted, id, action);
      && (Doomed(after, id) || Balanced(w, after, deposits, a))
      && Rises(w, after) && (Ordered(w) ==> Ordered(after))
  {
    ConcludeGrows(w, scripted, id, action);
    WrappedAccounts(w, scripted, Conclude(w, scripted, id, action), id, deposits, a);
  }

  lemma ExecuteAccounts(env: Env, w: World, id: nat, action: string, args: Json, a: string)
    requires Sound(w) && Execute(env, w, id, action, args, true).receipt.Some?
    ensures var after := Execute(env, w, id, action, args, true).world;
      Doomed(after, id) || Balanced(w, after, ScriptDeposits(env, w, id, action, args, a), a)
    ensures Rises(w, Execute(env, w, id, action, args, true).world)
    ensures Ordered(w) ==> Ordered(Execute(env, w, id, action, args, true).world)
  {
    var calls := env.script(w, id, ContractSource(w, id).value, action, args).calls;
    ScriptAccounts(w, id, calls, a);
    ScriptRaisesProgress(w, id, calls);
    if Ordered(w) {
      ScriptKeepsOrdered(w, id, calls);
    }
    ConcludedAccounts(w, PerformAll(w, id, calls), id, action, ScriptCredits(w, id, calls, a), a);
  }

  /** The effects of one write on money and progress, before the commit decision. */
  ghost predicate Accounted(env: Env, w: World, write: Write, after: World, a: string) {
    && Balanced(w, after, WriteDeposits(env, w, write, a), a)
    && Rises(w, after)
    && (Ordered(w) ==> Ordered(after))
  }

  lemma CommandAccounts(env: Env, w: World, id: nat, action: string, args: Json, a: string)
    requires Sound(w) && Execute(env, w, id, action, args, true).receipt.Some?
    ensures var after := Execute(env, w, id, action, args, true).world;
      Doomed(after, id) || Accounted(env, w, CommandWrite(id, action, args), after, a)
  {
    ExecuteAccounts(env, w, id, action, args, a);
  }

  /** Bumping the nonce and logging the transaction moves no money and no entity. */
  lemma WrapKeepsAccounts(env: Env, w: World, tx: Transaction, a: string)
    requires Mutate(env, w, TransactionWrite(tx)).receipt.Some?
    ensures var run := Execute(env, w, tx.entityId, tx.action, tx.args, true);
      var after := Mutate(env, w, TransactionWrite(tx)).world;
      && run.receipt.Some?
      && after.entities == run.world.entities && after.progress == run.world.progress
      && after.quests == run.world.quests && after.nextEntityId == run.world.nextEntityId
      && Balance(after, a) == Balance(run.world, a)
  {
    TransactionWraps(env, w, tx);
  }

  lemma TransactionAccounts(env: Env, w: World, tx: Transaction, a: string)
    requires Sound(w) && Mutate(env, w, TransactionWrite(tx)).receipt.Some?
    ensures var after := Mutate(env, w, TransactionWrite(tx)).world;
      Doomed(after, tx.entityId) || Accounted(env, w, TransactionWrite(tx), after, a)
  {
    hide Execute, ExecuteTransaction, Balanced, Rises, Doomed, Ordered;
    WrapKeepsAccounts(env, w, tx, a);
    var run := Execute(env, w, tx.entityId, tx.action, tx.args, true).world;
    var after := Mutate(env, w, TransactionWrite(tx)).world;
    ExecuteAccounts(env, w, tx.entityId, tx.action, tx.args, a);
    WrappedAccounts(w, run, after, tx.entityId, ScriptDeposits(env, w, tx.entityId, tx.action, tx.args, a), a);
  }

  lemma AdministrativeAccounts(env: Env, w: World, write: Write, a: string)
    requires Sound(w) && !Executes(write) && Mutate(env, w, write).receipt.Some?
    ensures Accounted(env, w, write, Mutate(env, w, write).world, a)
  {
    var after := Mutate(env, w, write).world;
    assert after.quests == w.quests && after.progress == w.progress;
    assert Balance(after, a) == Balance(w, a) + WriteDeposits(env, w, write, a);
    if write.CreateEntityWrite? {
      assert SameIdentity(w, after);
      EarnedKept(w, after, a);
    } else {
      EarnedSame(w, after, a);
    }
    if Ordered(w) {
      OrderedSame(w, after);
    }
  }

  lemma CommitAccounts(env: Env, w: World, write: Write, saved: bool, a: string)
    requires Valid(w, env.blake3)
    ensures var after := Commit(env, w, write, saved);
      && Balanced(w, after, Deposited(env, w, write, saved, a), a)
      && Rises(w, after)
      && (Ordered(w) ==> Ordered(after))
  {
    if Commits(env, w, write, saved) {
      var after := Mutate(env, w, write).world;
      ValidIsSound(w, env.blake3);
      match write
      case CommandWrite(id, action, args) =>
        CommandAccounts(env, w, id, action, args, a);
        if Doomed(after, id) {
          DoomedIsInvalid(after, id, env.blake3);
        }
      case TransactionWrite(tx) =>
        TransactionAccounts(env, w, tx, a);
        if Doomed(after, tx.entityId) {
          DoomedIsInvalid(after, tx.entityId, env.blake3);
        }
      case _ => AdministrativeAccounts(env, w, write, a);
    }
  }

  /**
   Over any run from a valid world: progress only rises, prerequisites stay ahead of
   progress, and each balance is its start plus explicit deposits plus the rewards of the
   (actor, quest) pairs completed since, each paid once.
   */
  lemma {:induction false} RunAccounts(env: Env, w: World, writes: Script, a: string)
    requires Valid(w, env.blake3)
    ensures var after := Run(env, w, writes);
      && Valid(after, env.blake3)
      && Balanced(w, after, Deposits(env, w, writes, a), a)
      && Rises(w, after)
      && (Ordered(w) ==> Ordered(after))
  {
    if writes == [] {
    } else {
      var init, last := writes[..|writes| - 1], writes[|writes| - 1];
      RunAccounts(env, w, init, a);
      CommitAccounts(env, Run(env, w, init), last.0, last.1, a);
    }
  }
}
