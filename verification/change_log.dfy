/**
 The event log as a change log: replaying the change events of any run of writes over the
 starting entity ids and quest progress gives exactly the final ones, but for the entities
 that were created administratively.
 */
module ChangeLog {
  import opened Common
  import opened Text
  import opened Json
  import opened Model
  import opened HostOps
  import opened Execution
  import opened History
  import opened Receipts

  // ---------- readers of the log ----------

  function ReadId(ids: set<nat>, e: Event): set<nat> {
    if e.kind != ENTITY_CHANGED || e.entityId.None? then ids
    else
      match GetStr(e.data, "change")
      case Some("created") => ids + {e.entityId.value}
      case Some("deleted") => ids - {e.entityId.value}
      case _ => ids
  }

  function ReplayIds(ids: set<nat>, events: seq<Event>): set<nat>
    decreases |events|
  {
    if events == [] then ids else ReplayIds(ReadId(ids, events[0]), events[1..])
  }

  function ParseStatus(s: string): Option<QuestStatus> {
    match s
    case "accepted" => Some(Accepted)
    case "completed" => Some(Completed)
    case _ => None
  }

  function ReadProgress(m: map<string, Progress>, e: Event): map<string, Progress> {
    if e.kind != PROGRESS_CHANGED || e.entityId.None? then m
    else
      match (GetStr(e.data, "quest_id"), GetStr(e.data, "status"))
      case (Some(quest), Some(status)) =>
        if ParseStatus(status).None? then m
        else m[ProgressKey(e.entityId.value, quest) := Progress(quest, e.entityId.value, ParseStatus(status).value)]
      case _ => m
  }

  function ReplayProgress(m: map<string, Progress>, events: seq<Event>): map<string, Progress>
    decreases |events|
  {
    if events == [] then m else ReplayProgress(ReadProgress(m, events[0]), events[1..])
  }

  lemma {:induction false} ReplayAppend(ids: set<nat>, m: map<string, Progress>, a: seq<Event>, b: seq<Event>)
    ensures ReplayIds(ids, a + b) == ReplayIds(ReplayIds(ids, a), b)
    ensures ReplayProgress(m, a + b) == ReplayProgress(ReplayProgress(m, a), b)
    decreases |a|
  {
    if a == [] {
      assert a + b == b;
    } else {
      assert (a + b)[1..] == a[1..] + b;
      ReplayAppend(ReadId(ids, a[0]), ReadProgress(m, a[0]), a[1..], b);
    }
  }

  /** Events of other kinds, such as those a script emits, do not disturb the readers. */
  ghost predicate Silent(events: seq<Event>, kind: string) {
    forall i :: 0 <= i < |events| ==> events[i].kind != kind
  }

  lemma {:induction false} SilentReplay(ids: set<nat>, m: map<string, Progress>, events: seq<Event>)
    ensures Silent(events, ENTITY_CHANGED) ==> ReplayIds(ids, events) == ids
    ensures Silent(events, PROGRESS_CHANGED) ==> ReplayProgress(m, events) == m
    decreases |events|
  {
    if events == [] {
    } else {
      SilentReplay(ids, m, events[1..]);
    }
  }

  // ---------- what one command writes ----------

  lemma ChangeEventRead(ids: set<nat>, before: World, after: World, id: nat, e: Event)
    requires e.kind == ENTITY_CHANGED && e.entityId == Some(id)
    requires e.data == Obj(map["change" := Str(ChangeName(before, after, id))])
    ensures id in before.entities && id !in after.entities ==> ReadId(ids, e) == ids - {id}
    ensures id !in before.entities && id in after.entities ==> ReadId(ids, e) == ids + {id}
    ensures id in before.entities && id in after.entities ==> ReadId(ids, e) == ids
  {
    assert GetStr(e.data, "change") == Some(ChangeName(before, after, id));
    assert "created" != "deleted" && "updated" != "created" && "updated" != "deleted" by {
      assert "created"[0] != "deleted"[0] && "updated"[0] != "created"[0] && "updated"[0] != "deleted"[0];
    }
  }

  /** `result` is `s` with what was created between `before` and `after` put in and what was deleted taken out. */
  ghost predicate Told(s: set<nat>, before: set<nat>, after: set<nat>, result: set<nat>) {
    result == (s + (after - before)) - (before - after)
  }

  /** Replaying the entity events of `ids` puts in those that were created and takes out those that were deleted. */
  lemma {:induction false} EntityEventsReplay(s: set<nat>, before: World, after: World, ids: seq<nat>)
    requires forall i :: 0 <= i < |ids| ==> ids[i] in before.entities || ids[i] in after.entities
    requires Distinct(ids)
    ensures var events := NewEvents(after, LogEntities(before, after, ids));
      && Silent(events, PROGRESS_CHANGED)
      && forall x :: x in ReplayIds(s, events) <==>
        if x in ids && !(x in before.entities && x in after.entities) then x in after.entities else x in s
    decreases |ids|
  {
    if ids == [] {
    } else {
      var data := Obj(map["change" := Str(ChangeName(before, after, ids[0]))]);
      var next := LogEntity(before, after, ids[0]);
      var e := Event(after.nextEventId, after.head, ENTITY_CHANGED, Some(ids[0]), data);
      AppendGrows(after, ENTITY_CHANGED, Some(ids[0]), data);
      LogEntitiesGrows(before, next, ids[1..]);
      GrowsTransitive(after, next, LogEntities(before, after, ids));
      ChangeEventRead(s, before, after, ids[0], e);
      assert ids[0] in before.entities || ids[0] in after.entities;
      var s' := ReadId(s, e);
      EntityEventsReplay(s', before, next, ids[1..]);
      ReplayAppend(s, map[], [e], NewEvents(next, LogEntities(before, next, ids[1..])));
      assert ReplayIds(s, [e]) == ReplayIds(s', []);
      forall x
        ensures x in ids <==> x == ids[0] || x in ids[1..]
      {
      }
      assert ids[0] !in ids[1..];
    }
  }

  lemma ProgressEventRead(m: map<string, Progress>, p: Progress, e: Event)
    requires e.kind == PROGRESS_CHANGED && e.entityId == Some(p.actorId)
    requires e.data == Obj(map["quest_id" := Str(p.questId), "status" := Str(StatusName(p.status))])
    ensures ReadProgress(m, e) == m[ProgressKey(p.actorId, p.questId) := p]
  {
    assert "quest_id"[0] != "status"[0] && "accepted"[0] != "completed"[0];
    assert GetStr(e.data, "quest_id") == Some(p.questId) && GetStr(e.data, "status") == Some(StatusName(p.status));
    assert ParseStatus(StatusName(p.status)) == Some(p.status);
  }

  ghost predicate KeyedAt(progress: map<string, Progress>, k: string)
    requires k in progress
  {
    k == ProgressKey(progress[k].actorId, progress[k].questId)
  }

  ghost predicate Keyed(progress: map<string, Progress>) {
    forall k {:trigger KeyedAt(progress, k)} :: k in progress ==> KeyedAt(progress, k)
  }

  /** `r` is `m` with the entries of `keys` taken from `source`. */
  ghost predicate Overlaid(
    r: map<string, Progress>, m: map<string, Progress>, source: map<string, Progress>, keys: set<string>)
  {
    && keys <= source.Keys
    && r.Keys == m.Keys + keys
    && forall k :: k in r ==> r[k] == if k in keys then source[k] else m[k]
  }

  lemma ProgressEntryReplay(m: map<string, Progress>, after: World, k: string)
    requires k in after.progress && KeyedAt(after.progress, k)
    ensures ReplayProgress(m, NewEvents(after, LogProgressEntry(after, k))) == m[k := after.progress[k]]
  {
    LogProgressEntryGrows(after, k);
    var events := NewEvents(after, LogProgressEntry(after, k));
    ProgressEventRead(m, after.progress[k], events[0]);
    assert ReplayProgress(m, events) == ReplayProgress(ReadProgress(m, events[0]), []);
  }

  lemma {:induction false} ProgressEventsSilent(after: World, keys: seq<string>)
    ensures Silent(NewEvents(after, LogProgress(after, keys)), ENTITY_CHANGED)
    decreases |keys|
  {
    if keys == [] {
    } else {
      var next := LogProgressEntry(after, keys[0]);
      LogProgressEntryGrows(after, keys[0]);
      LogProgressGrows(next, keys[1..]);
      GrowsTransitive(after, next, LogProgress(after, keys));
      ProgressEventsSilent(next, keys[1..]);
    }
  }

  lemma {:induction false} ProgressEventsReplay(m: map<string, Progress>, after: World, keys: seq<string>)
    requires Keyed(after.progress) && forall i :: 0 <= i < |keys| ==> keys[i] in after.progress
    ensures Overlaid(ReplayProgress(m, NewEvents(after, LogProgress(after, keys))), m, after.progress, Elements(keys))
    decreases |keys|
  {
    if keys == [] {
    } else {
      var k := keys[0];
      assert KeyedAt(after.progress, k);
      var next := LogProgressEntry(after, k);
      LogProgressEntryGrows(after, k);
      var first, rest := NewEvents(after, next), NewEvents(next, LogProgress(next, keys[1..]));
      ProgressEntryReplay(m, after, k);
      LogProgressGrows(next, keys[1..]);
      GrowsTransitive(after, next, LogProgress(after, keys));
      ProgressEventsReplay(m[k := after.progress[k]], next, keys[1..]);
      ReplayAppend({}, m, first, rest);
      OverlayStep(ReplayProgress(m, first + rest), m, after.progress, k, Elements(keys[1..]));
      assert Elements(keys) == {k} + Elements(keys[1..]);
    }
  }

  lemma OverlayStep(
    r: map<string, Progress>, m: map<string, Progress>, source: map<string, Progress>, k: string, rest: set<string>)
    requires k in source && Overlaid(r, m[k := source[k]], source, rest)
    ensures Overlaid(r, m, source, {k} + rest)
  {
  }

  /** No host call forgets quest progress. */
  lemma CallKeepsProgressKeys(w: World, caller: nat, call: Call)
    ensures w.progress.Keys <= Perform(w, caller, call).world.progress.Keys
  {
  }

  lemma {:induction false} ScriptKeepsProgressKeys(w: World, caller: nat, calls: seq<Call>)
    ensures w.progress.Keys <= PerformAll(w, caller, calls).progress.Keys
    decreases |calls|
  {
    if calls == [] {
    } else {
      CallKeepsProgressKeys(w, caller, calls[0]);
      ScriptKeepsProgressKeys(Perform(w, caller, calls[0]).world, caller, calls[1..]);
    }
  }

  lemma ConcludeReplays(w: World, scripted: World, id: nat, action: string, s: set<nat>)
    requires w.progress.Keys <= scripted.progress.Keys
    requires Keyed(scripted.progress)
    ensures var events := NewEvents(Headed(scripted), Conclude(w, scripted, id, action));
      && Told(s, w.entities.Keys, scripted.entities.Keys, ReplayIds(s, events))
      && ReplayProgress(w.progress, events) == scripted.progress
  {
    hide Told;
    var h, e, p := Headed(scripted), EntitiesLogged(w, scripted), ProgressLogged(w, scripted);
    var after := Conclude(w, scripted, id, action);
    ConcludeGrows(w, scripted, id, action);
    EntitiesLoggedReplay(w, scripted, s);
    var s' := ReplayIds(s, NewEvents(h, e));
    ProgressLoggedReplay(w, scripted, s');
    AppendGrows(p, COMMAND_EXECUTED, Some(id), Obj(map["action" := Str(action)]));
    var tail := NewEvents(p, after);
    SilentReplay(s', scripted.progress, tail);
    ReplayAppend(s, w.progress, NewEvents(h, e), NewEvents(e, p));
    ReplayAppend(s, w.progress, NewEvents(h, e) + NewEvents(e, p), tail);
  }

  lemma EntitiesLoggedReplay(w: World, scripted: World, s: set<nat>)
    ensures var events := NewEvents(Headed(scripted), EntitiesLogged(w, scripted));
      && Told(s, w.entities.Keys, scripted.entities.Keys, ReplayIds(s, events))
      && ReplayProgress(w.progress, events) == w.progress
  {
    hide ReplayIds, ReplayProgress, LogEntities, AscendingIds;
    var h, e := Headed(scripted), EntitiesLogged(w, scripted);
    var ids := AscendingIds(ChangedIds(w, h));
    assert forall x :: x in ids <==> x in Elements(ids);
    assert forall i :: 0 <= i < |ids| ==> ids[i] in Elements(ids);
    EntityEventsReplay(s, w, h, ids);
    SilentReplay(s, w.progress, NewEvents(h, e));
    ChangesTold(s, w, h, ids, ReplayIds(s, NewEvents(h, e)));
  }

  lemma ChangesTold(s: set<nat>, before: World, after: World, ids: seq<nat>, result: set<nat>)
    requires forall x :: x in ids <==> x in ChangedIds(before, after)
    requires forall x :: x in result <==>
      if x in ids && !(x in before.entities && x in after.entities) then x in after.entities else x in s
    ensures Told(s, before.entities.Keys, after.entities.Keys, result)
  {
  }

  lemma ProgressLoggedReplay(w: World, scripted: World, s: set<nat>)
    requires w.progress.Keys <= scripted.progress.Keys && Keyed(scripted.progress)
    ensures var events := NewEvents(EntitiesLogged(w, scripted), ProgressLogged(w, scripted));
      && ReplayIds(s, events) == s
      && ReplayProgress(w.progress, events) == scripted.progress
  {
    var h, e, p := Headed(scripted), EntitiesLogged(w, scripted), ProgressLogged(w, scripted);
    LogEntitiesGrows(w, h, AscendingIds(ChangedIds(w, h)));
    var keys := SortedKeys(ChangedProgress(w, e));
    assert forall i :: 0 <= i < |keys| ==> keys[i] in Elements(keys);
    ProgressEventsReplay(w.progress, e, keys);
    ProgressEventsSilent(e, keys);
    SilentReplay(s, scripted.progress, NewEvents(e, p));
    OverlayOfChanges(ReplayProgress(w.progress, NewEvents(e, p)), w.progress, scripted.progress, ChangedProgress(w, e));
  }

  lemma OverlayOfChanges(
    r: map<string, Progress>, before: map<string, Progress>, after: map<string, Progress>, changed: set<string>)
    requires before.Keys <= after.Keys && Overlaid(r, before, after, changed)
    requires forall k :: k in changed <==> k in after && At(before, k) != At(after, k)
    ensures r == after
  {
    forall k | k in after
      ensures k in r && r[k] == after[k]
    {
      assert k in changed || At(before, k) == At(after, k);
    }
  }

  // ---------- one write ----------

  /** The new events, replayed, take `s` and the old progress to where the write took the world. */
  ghost predicate Tells(w: World, after: World, s: set<nat>) {
    && LogGrows(w, after)
    && Told(s, w.entities.Keys, after.entities.Keys, ReplayIds(s, NewEvents(w, after)))
    && ReplayProgress(w.progress, NewEvents(w, after)) == after.progress
  }

  /** Replayed over the old ids and progress, the new events give the new ones. */
  ghost predicate Replays(w: World, after: World) {
    && LogGrows(w, after)
    && ReplayIds(w.entities.Keys, NewEvents(w, after)) == after.entities.Keys
    && ReplayProgress(w.progress, NewEvents(w, after)) == after.progress
  }

  lemma TellsReplays(w: World, after: World)
    ensures Tells(w, after, w.entities.Keys) <==> Replays(w, after)
  {
    hide LogGrows, ReplayIds, ReplayProgress;
    var before, now := w.entities.Keys, after.entities.Keys;
    assert (before + (now - before)) - (before - now) == now;
  }

  lemma CommandTells(w: World, id: nat, calls: seq<Call>, action: string, s: set<nat>)
    requires Keyed(Conclude(w, PerformAll(w, id, calls), id, action).progress)
    ensures Tells(w, Conclude(w, PerformAll(w, id, calls), id, action), s)
  {
    hide Conclude, ReplayIds, ReplayProgress, PerformAll, LogExact, Told;
    var scripted := PerformAll(w, id, calls);
    var after := Conclude(w, scripted, id, action);
    ScriptKeepsHistory(w, id, calls);
    ScriptKeepsProgressKeys(w, id, calls);
    ConcludeGrows(w, scripted, id, action);
    ConcludeReplays(w, scripted, id, action, s);
    assert NewEvents(scripted, after) == NewEvents(Headed(scripted), after);
    GrowsTransitive(w, scripted, after);
    SilentReplay(s, w.progress, NewEvents(w, scripted));
    ReplayAppend(s, w.progress, NewEvents(w, scripted), NewEvents(scripted, after));
  }

  lemma CommandReplays(w: World, id: nat, calls: seq<Call>, action: string)
    requires Keyed(Conclude(w, PerformAll(w, id, calls), id, action).progress)
    ensures Replays(w, Conclude(w, PerformAll(w, id, calls), id, action))
  {
    hide Tells, Replays;
    CommandTells(w, id, calls, action, w.entities.Keys);
    TellsReplays(w, Conclude(w, PerformAll(w, id, calls), id, action));
  }

  lemma ExecuteTells(env: Env, w: World, id: nat, action: string, args: Json, s: set<nat>)
    requires var run := Execute(env, w, id, action, args, true); run.receipt.Some? && Keyed(run.world.progress)
    ensures Tells(w, Execute(env, w, id, action, args, true).world, s)
  {
    hide Tells;
    var calls := env.script(w, id, ContractSource(w, id).value, action, args).calls;
    CommandTells(w, id, calls, action, s);
  }

  /** The transaction's own event is of a kind neither reader looks at. */
  lemma TransactionEventSilent(w: World, run: World, after: World, e: Event, s: set<nat>)
    requires Tells(w, run, s) && e.kind == TX_EXECUTED && LogGrows(run, after)
    requires after.events == run.events + [e] && after.entities == run.entities && after.progress == run.progress
    ensures Tells(w, after, s)
  {
    hide Told;
    GrowsTransitive(w, run, after);
    assert NewEvents(run, after) == [e];
    ReplayAppend(s, w.progress, NewEvents(w, run), [e]);
    SilentReplay(ReplayIds(s, NewEvents(w, run)), run.progress, [e]);
  }

  lemma TransactionTells(env: Env, w: World, tx: Transaction, s: set<nat>)
    requires Mutate(env, w, TransactionWrite(tx)).receipt.Some?
    requires Keyed(Mutate(env, w, TransactionWrite(tx)).world.progress)
    ensures Tells(w, Mutate(env, w, TransactionWrite(tx)).world, s)
  {
    var run := Execute(env, w, tx.entityId, tx.action, tx.args, true).world;
    var after := Mutate(env, w, TransactionWrite(tx)).world;
    TransactionWraps(env, w, tx);
    ExecuteTells(env, w, tx.entityId, tx.action, tx.args, s);
    AppendedLog(run, after, TxEvent(env, run, tx));
    TransactionEventSilent(w, run, after, TxEvent(env, run, tx), s);
  }

  lemma AppendedLog(w: World, after: World, e: Event)
    requires after.events == w.events + [e] && after.nextEventId == w.nextEventId + 1 && after.head == w.head
    requires e.id == w.nextEventId && e.head == w.head
    ensures LogGrows(w, after)
  {
  }

  lemma KeyedWhenValid(w: World)
    requires ProgressOk(w.entities, w.quests, w.progress)
    ensures Keyed(w.progress)
  {
  }

  /** Nothing but an administrative creation goes unlogged. */
  lemma CommitTells(env: Env, w: World, write: Write, saved: bool, s: set<nat>)
    requires !(write.CreateEntityWrite? && Commits(env, w, write, saved))
    ensures Tells(w, Commit(env, w, write, saved), s)
  {
    var done := Mutate(env, w, write);
    if Commit(env, w, write, saved) == w || !Executes(write) {
      assert NewEvents(w, Commit(env, w, write, saved)) == [];
    } else if write.CommandWrite? {
      KeyedWhenValid(done.world);
      ExecuteTells(env, w, write.id, write.action, write.args, s);
    } else {
      KeyedWhenValid(done.world);
      TransactionTells(env, w, write.tx, s);
    }
  }

  /** A write's events tell its whole change exactly if it is not a committed administrative creation. */
  lemma CommitReplays(env: Env, w: World, write: Write, saved: bool)
    requires w.nextEntityId !in w.entities
    ensures Replays(w, Commit(env, w, write, saved)) <==> !(write.CreateEntityWrite? && Commits(env, w, write, saved))
  {
    hide Tells, Replays;
    if write.CreateEntityWrite? && Commits(env, w, write, saved) {
      CreationIsSilent(env, w, write, saved);
    } else {
      CommitTells(env, w, write, saved, w.entities.Keys);
      TellsReplays(w, Commit(env, w, write, saved));
    }
  }

  /** An administrative creation logs nothing, so the log then falls short by that entity. */
  lemma CreationIsSilent(env: Env, w: World, write: Write, saved: bool)
    requires w.nextEntityId !in w.entities && write.CreateEntityWrite? && Commits(env, w, write, saved)
    ensures var after := Commit(env, w, write, saved);
      && LogGrows(w, after) && NewEvents(w, after) == [] && after.progress == w.progress
      && after.entities.Keys == w.entities.Keys + {w.nextEntityId}
      && !Replays(w, after)
  {
    hide Valid;
    var after := Commit(env, w, write, saved);
    assert NewEvents(w, after) == [];
    assert w.nextEntityId in after.entities.Keys;
  }

  // ---------- new ids ----------

  /** Entities that were not there before have ids that were not used before. */
  ghost predicate NewIdsAbove(w: World, after: World) {
    && w.nextEntityId <= after.nextEntityId
    && forall id :: id in after.entities && id !in w.entities ==> w.nextEntityId <= id < after.nextEntityId
  }

  ghost predicate IdsBelow(w: World) {
    forall id :: id in w.entities ==> id < w.nextEntityId
  }

  lemma CallNewIds(w: World, caller: nat, call: Call)
    ensures NewIdsAbove(w, Perform(w, caller, call).world)
  {
  }

  lemma {:induction false} ScriptNewIds(w: World, caller: nat, calls: seq<Call>)
    ensures NewIdsAbove(w, PerformAll(w, caller, calls))
    decreases |calls|
  {
    hide Perform;
    if calls == [] {
    } else {
      CallNewIds(w, caller, calls[0]);
      ScriptNewIds(Perform(w, caller, calls[0]).world, caller, calls[1..]);
    }
  }

  lemma ExecuteNewIds(env: Env, w: World, id: nat, action: string, args: Json)
    ensures NewIdsAbove(w, Execute(env, w, id, action, args, true).world)
  {
    hide Conclude, PerformAll, NewIdsAbove, LogGrows, Root;
    OldIdsAbove(w, w);
    if ContractSource(w, id).Some? && env.script(w, id, ContractSource(w, id).value, action, args).Finished? {
      var calls := env.script(w, id, ContractSource(w, id).value, action, args).calls;
      ScriptNewIds(w, id, calls);
      CommandNewIds(w, PerformAll(w, id, calls), id, action);
    }
  }

  lemma CommandNewIds(w: World, scripted: World, id: nat, action: string)
    requires NewIdsAbove(w, scripted)
    ensures NewIdsAbove(w, Conclude(w, scripted, id, action))
  {
    hide Conclude, NewIdsAbove, LogGrows;
    ConcludeGrows(w, scripted, id, action);
    OldIdsAbove(scripted, Conclude(w, scripted, id, action));
  }

  lemma OldIdsAbove(scripted: World, after: World)
    requires after.entities == scripted.entities && after.nextEntityId == scripted.nextEntityId
    ensures NewIdsAbove(after, after)
    ensures forall w: World :: NewIdsAbove(w, scripted) ==> NewIdsAbove(w, after)
  {
  }

  lemma CommitNewIds(env: Env, w: World, write: Write, saved: bool)
    ensures NewIdsAbove(w, Commit(env, w, write, saved))
  {
    hide Execute;
    if write.CommandWrite? {
      ExecuteNewIds(env, w, write.id, write.action, write.args);
    } else if write.TransactionWrite? {
      ExecuteNewIds(env, w, write.tx.entityId, write.tx.action, write.tx.args);
    }
  }

  // ---------- runs ----------

  /** The entities that the committed administrative creations of a run made. */
  ghost function AdminCreated(env: Env, w: World, writes: Script): set<nat> {
    if writes == [] then {}
    else
      var init, last := writes[..|writes| - 1], writes[|writes| - 1];
      var before := Run(env, w, init);
      AdminCreated(env, w, init) +
      if last.0.CreateEntityWrite? && Commits(env, before, last.0, last.1) then {before.nextEntityId} else {}
  }

  lemma {:induction false} RunNewIds(env: Env, w: World, writes: Script)
    ensures var after := Run(env, w, writes);
      && NewIdsAbove(w, after)
      && (forall id :: id in AdminCreated(env, w, writes) ==> id < after.nextEntityId)
      && (IdsBelow(w) ==> IdsBelow(after))
  {
    hide Commit, Commits;
    if writes == [] {
    } else {
      var init, last := writes[..|writes| - 1], writes[|writes| - 1];
      RunNewIds(env, w, init);
      CommitNewIds(env, Run(env, w, init), last.0, last.1);
      if last.0.CreateEntityWrite? && Commits(env, Run(env, w, init), last.0, last.1) {
        CreationCounts(env, Run(env, w, init), last.0, last.1);
      }
    }
  }

  lemma CreationCounts(env: Env, w: World, write: Write, saved: bool)
    requires write.CreateEntityWrite? && Commits(env, w, write, saved)
    ensures Commit(env, w, write, saved).nextEntityId == w.nextEntityId + 1
  {
    hide Valid;
  }

  /** Ids that are new in the log are no skipped ones, so the readers stay apart from the world by those alone. */
  lemma ToldBut(before: set<nat>, after: set<nat>, skipped: set<nat>, result: set<nat>)
    requires Told(before - skipped, before, after, result)
    requires forall id :: id in after && id !in before ==> id !in skipped
    ensures result == after - skipped
  {
  }

  /**
   Over any run of writes, saved or not, the log tells the whole change of the quest
   progress, and of the entity ids all but those created administratively.
   */
  lemma {:induction false} LogIsFaithful(env: Env, w: World, writes: Script)
    requires IdsBelow(w) || forall i :: 0 <= i < |writes| ==> !writes[i].0.CreateEntityWrite?
    ensures var after := Run(env, w, writes);
      && LogGrows(w, after)
      && ReplayProgress(w.progress, NewEvents(w, after)) == after.progress
      && ReplayIds(w.entities.Keys, NewEvents(w, after)) == after.entities.Keys - AdminCreated(env, w, writes)
  {
    hide Commit, Commits, ReplayIds, ReplayProgress;
    var after := Run(env, w, writes);
    if writes == [] {
      assert NewEvents(w, w) == [];
      ReplayNothing(w);
    } else {
      var init, last := writes[..|writes| - 1], writes[|writes| - 1];
      LogIsFaithful(env, w, init);
      RunNewIds(env, w, init);
      var p, skipped := Run(env, w, init), AdminCreated(env, w, init);
      var s := ReplayIds(w.entities.Keys, NewEvents(w, p));
      if last.0.CreateEntityWrite? && Commits(env, p, last.0, last.1) {
        CreationIsSilent(env, p, last.0, last.1);
        SilentReplay(s, p.progress, NewEvents(p, after));
      } else {
        CommitTells(env, p, last.0, last.1, s);
        CommitNewIds(env, p, last.0, last.1);
        ToldBut(p.entities.Keys, after.entities.Keys, skipped, ReplayIds(s, NewEvents(p, after)));
      }
      GrowsTransitive(w, p, after);
      ReplayAppend(w.entities.Keys, w.progress, NewEvents(w, p), NewEvents(p, after));
    }
  }

  lemma ReplayNothing(w: World)
    ensures ReplayIds(w.entities.Keys, []) == w.entities.Keys && ReplayProgress(w.progress, []) == w.progress
    ensures LogGrows(w, w)
  {
  }

  /** So the log tells everything exactly if no administratively created entity is left. */
  lemma LogIsFaithfulIff(env: Env, w: World, writes: Script)
    requires Valid(w, env.blake3)
    ensures Replays(w, Run(env, w, writes)) <==>
      AdminCreated(env, w, writes) !! Run(env, w, writes).entities.Keys
  {
    hide ReplayIds, ReplayProgress, Run, AdminCreated;
    ValidIdsBelow(w, env.blake3);
    LogIsFaithful(env, w, writes);
    var keys, skipped := Run(env, w, writes).entities.Keys, AdminCreated(env, w, writes);
    assert keys - skipped == keys <==> skipped !! keys;
  }

  lemma ValidIdsBelow(w: World, blake3: string -> string)
    requires Valid(w, blake3)
    ensures IdsBelow(w)
  {
  }
}
