/**
 The change events of a command, told from the worlds before and after it alone: exactly one
 for each entity and each progress entry that differs, in order, and what it says. Over a
 run, every entity that differs is named.
 */
module ChangeEvents {
  import opened Common
  import opened Text
  import opened Json
  import opened Model
  import opened HostOps
  import opened Execution
  import opened History
  import opened Receipts
  import opened ChangeLog

  // ---------- what the worlds say ----------

  /** The entity appears, disappears, or is another one. */
  ghost predicate EntityDiffers(a: World, b: World, id: nat) {
    || (id in a.entities) != (id in b.entities)
    || (id in a.entities && id in b.entities && a.entities[id] != b.entities[id])
  }

  /** An event about one entity, in the words for what happened to it. */
  ghost predicate TellsEntity(a: World, b: World, e: Event, id: nat) {
    && e.kind == "entity_changed" && e.entityId == Some(id) && e.data.Obj? && e.data.fields.Keys == {"change"}
    && (id !in a.entities && id in b.entities ==> e.data.fields["change"] == Str("created"))
    && (id in a.entities && id !in b.entities ==> e.data.fields["change"] == Str("deleted"))
    && (id in a.entities && id in b.entities ==> e.data.fields["change"] == Str("updated"))
  }

  ghost predicate ProgressDiffers(a: World, b: World, key: string) {
    key in b.progress && (key !in a.progress || a.progress[key] != b.progress[key])
  }

  /** An event about one entry of the quest progress, with its quest and status. */
  ghost predicate TellsProgress(b: World, e: Event, key: string) {
    && key in b.progress && e.kind == "quest_progress_changed" && e.entityId == Some(b.progress[key].actorId)
    && e.data.Obj? && e.data.fields.Keys == {"quest_id", "status"}
    && e.data.fields["quest_id"] == Str(b.progress[key].questId)
    && (b.progress[key].status == Accepted ==> e.data.fields["status"] == Str("accepted"))
    && (b.progress[key].status == Completed ==> e.data.fields["status"] == Str("completed"))
  }

  /** `events` tell of exactly the entities that differ, once each, by rising id. */
  ghost predicate EntityRecord(a: World, b: World, events: seq<Event>, ids: seq<nat>) {
    && |ids| == |events|
    && (forall i, j :: 0 <= i < j < |ids| ==> ids[i] < ids[j])
    && (forall id :: id in ids <==> EntityDiffers(a, b, id))
    && forall i :: 0 <= i < |ids| ==> TellsEntity(a, b, events[i], ids[i])
  }

  /** `events` tell of exactly the progress entries that differ, once each, by rising key. */
  ghost predicate ProgressRecord(a: World, b: World, events: seq<Event>, keys: seq<string>) {
    && |keys| == |events|
    && Ascending(keys)
    && (forall k :: k in keys <==> ProgressDiffers(a, b, k))
    && forall i :: 0 <= i < |keys| ==> TellsProgress(b, events[i], keys[i])
  }

  ghost predicate EntitiesRecorded(a: World, b: World, events: seq<Event>) {
    exists ids :: EntityRecord(a, b, events, ids)
  }

  ghost predicate ProgressRecorded(a: World, b: World, events: seq<Event>) {
    exists keys :: ProgressRecord(a, b, events, keys)
  }

  /** The event that closes a command. */
  ghost predicate TellsCommand(e: Event, id: nat, action: string) {
    && e.kind == "command_executed" && e.entityId == Some(id)
    && e.data.Obj? && e.data.fields.Keys == {"action"} && e.data.fields["action"] == Str(action)
  }

  /**
   What a command logs behind its script's events: the entities, the progress, and itself,
   all at the new head.
   */
  ghost predicate CommandRecord(a: World, b: World, events: seq<Event>, n: int, head: nat, id: nat, action: string) {
    && 0 <= n < |events|
    && EntitiesRecorded(a, b, events[..n])
    && ProgressRecorded(a, b, events[n..|events| - 1])
    && TellsCommand(events[|events| - 1], id, action)
    && forall i :: 0 <= i < |events| ==> events[i].head == head
  }

  // ---------- what a command writes ----------

  lemma {:induction false} EntitiesAt(before: World, after: World, ids: seq<nat>)
    ensures var logged := LogEntities(before, after, ids);
      && LogGrows(after, logged) && logged.head == after.head && |NewEvents(after, logged)| == |ids|
      && forall i :: 0 <= i < |ids| ==>
        var e := NewEvents(after, logged)[i];
        && e.kind == ENTITY_CHANGED && e.entityId == Some(ids[i]) && e.head == after.head
        && e.data == Obj(map["change" := Str(ChangeName(before, after, ids[i]))])
    decreases |ids|
  {
    if ids == [] {
    } else {
      var next := LogEntity(before, after, ids[0]);
      var data := Obj(map["change" := Str(ChangeName(before, after, ids[0]))]);
      AppendGrows(after, ENTITY_CHANGED, Some(ids[0]), data);
      EntitiesAt(before, next, ids[1..]);
      GrowsTransitive(after, next, LogEntities(before, after, ids));
      SameNames(before, after, next);
      var more := NewEvents(next, LogEntities(before, next, ids[1..]));
      assert NewEvents(after, LogEntities(before, after, ids)) ==
        [Event(after.nextEventId, after.head, ENTITY_CHANGED, Some(ids[0]), data)] + more;
      hide LogEntities, LogEntity, LogGrows, NewEvents;
    }
  }

  lemma SameNames(before: World, after: World, next: World)
    requires next.entities == after.entities
    ensures forall id :: ChangeName(before, next, id) == ChangeName(before, after, id)
  {
  }

  lemma {:induction false} ProgressAt(after: World, keys: seq<string>)
    requires forall i :: 0 <= i < |keys| ==> keys[i] in after.progress
    ensures var logged := LogProgress(after, keys);
      && LogGrows(after, logged) && logged.head == after.head && |NewEvents(after, logged)| == |keys|
      && forall i :: 0 <= i < |keys| ==>
        var e, p := NewEvents(after, logged)[i], after.progress[keys[i]];
        && e.kind == PROGRESS_CHANGED && e.entityId == Some(p.actorId) && e.head == after.head
        && e.data == Obj(map["quest_id" := Str(p.questId), "status" := Str(StatusName(p.status))])
    decreases |keys|
  {
    if keys == [] {
    } else {
      var next := LogProgressEntry(after, keys[0]);
      LogProgressEntryGrows(after, keys[0]);
      ProgressAt(next, keys[1..]);
      GrowsTransitive(after, next, LogProgress(after, keys));
      var more := NewEvents(next, LogProgress(next, keys[1..]));
      assert NewEvents(after, LogProgress(after, keys)) == NewEvents(after, next) + more;
      hide LogProgress, LogProgressEntry, LogGrows, NewEvents;
    }
  }

  lemma EntityPart(a: World, scripted: World)
    ensures var h, e := Headed(scripted), EntitiesLogged(a, scripted);
      && EntitiesRecorded(a, scripted, NewEvents(h, e))
      && forall i :: 0 <= i < |NewEvents(h, e)| ==> NewEvents(h, e)[i].head == h.head
  {
    hide LogEntities, LogGrows, NewEvents, AscendingIds, ChangedIds, TellsEntity, EntityDiffers, ChangeName;
    var h := Headed(scripted);
    var ids := AscendingIds(ChangedIds(a, h));
    EntitiesAt(a, h, ids);
    DifferingIds(a, h, scripted, ids);
    var events := NewEvents(h, EntitiesLogged(a, scripted));
    forall i | 0 <= i < |ids|
      ensures TellsEntity(a, scripted, events[i], ids[i])
    {
      EntityTold(a, h, scripted, events[i], ids[i]);
    }
    assert EntityRecord(a, scripted, events, ids);
  }

  lemma DifferingIds(a: World, h: World, scripted: World, ids: seq<nat>)
    requires h.entities == scripted.entities && ids == AscendingIds(ChangedIds(a, h))
    ensures forall i, j :: 0 <= i < j < |ids| ==> ids[i] < ids[j]
    ensures forall id :: id in ids <==> EntityDiffers(a, scripted, id)
  {
    forall id
      ensures id in ids <==> EntityDiffers(a, scripted, id)
    {
      assert id in ids <==> id in Elements(ids);
    }
  }

  lemma EntityTold(a: World, h: World, scripted: World, e: Event, id: nat)
    requires h.entities == scripted.entities && e.kind == ENTITY_CHANGED && e.entityId == Some(id)
    requires e.data == Obj(map["change" := Str(ChangeName(a, h, id))])
    ensures TellsEntity(a, scripted, e, id)
  {
  }

  lemma ProgressPart(a: World, scripted: World)
    requires a.progress.Keys <= scripted.progress.Keys
    ensures var e, p := EntitiesLogged(a, scripted), ProgressLogged(a, scripted);
      && ProgressRecorded(a, scripted, NewEvents(e, p))
      && forall i :: 0 <= i < |NewEvents(e, p)| ==> NewEvents(e, p)[i].head == scripted.head + 1
  {
    hide LogEntities, LogProgress, LogGrows, EntitiesLogged, ProgressLogged, SortedKeys, TellsProgress, NewEvents,
      Ascending;
    var e, p := EntitiesLogged(a, scripted), ProgressLogged(a, scripted);
    LoggedOnly(a, scripted);
    var keys := SortedKeys(ChangedProgress(a, e));
    ChangedKeys(a, e, scripted, keys);
    ProgressAt(e, keys);
    var events := NewEvents(e, p);
    forall i | 0 <= i < |keys|
      ensures TellsProgress(scripted, events[i], keys[i])
    {
      EntryTold(scripted, events[i], keys[i]);
    }
    assert ProgressRecord(a, scripted, events, keys);
  }

  lemma ChangedKeys(a: World, e: World, scripted: World, keys: seq<string>)
    requires e.progress == scripted.progress && a.progress.Keys <= e.progress.Keys
    requires keys == SortedKeys(ChangedProgress(a, e))
    ensures Ascending(keys) && forall k :: k in keys <==> ProgressDiffers(a, scripted, k)
    ensures forall i :: 0 <= i < |keys| ==> keys[i] in e.progress
  {
    hide Ascending, Less;
    forall k
      ensures k in keys <==> ProgressDiffers(a, scripted, k)
    {
      assert k in keys <==> k in Elements(keys);
    }
    assert forall i :: 0 <= i < |keys| ==> keys[i] in keys;
  }

  lemma EntryTold(scripted: World, e: Event, key: string)
    requires key in scripted.progress && e.kind == PROGRESS_CHANGED
    requires var p := scripted.progress[key];
      && e.entityId == Some(p.actorId)
      && e.data == Obj(map["quest_id" := Str(p.questId), "status" := Str(StatusName(p.status))])
    ensures TellsProgress(scripted, e, key)
  {
    assert "quest_id"[0] != "status"[0];
  }

  lemma LoggedOnly(a: World, scripted: World)
    ensures EntitiesLogged(a, scripted).progress == scripted.progress
    ensures EntitiesLogged(a, scripted).head == scripted.head + 1
    ensures ProgressLogged(a, scripted) ==
      LogProgress(EntitiesLogged(a, scripted), SortedKeys(ChangedProgress(a, EntitiesLogged(a, scripted))))
    ensures ProgressLogged(a, scripted).head == scripted.head + 1
  {
    hide LogEntities, LogProgress, LogGrows;
    var h := Headed(scripted);
    LogEntitiesGrows(a, h, AscendingIds(ChangedIds(a, h)));
    var e := EntitiesLogged(a, scripted);
    LogProgressGrows(e, SortedKeys(ChangedProgress(a, e)));
  }

  /** What a command logs is exactly the record of what its script changed. */
  lemma CommandIsRecorded(a: World, scripted: World, id: nat, action: string)
    requires a.progress.Keys <= scripted.progress.Keys
    ensures var after := Conclude(a, scripted, id, action);
      && LogGrows(scripted, after) && after.head == scripted.head + 1
      && after.entities == scripted.entities && after.progress == scripted.progress
      && exists n :: CommandRecord(a, scripted, NewEvents(scripted, after), n, after.head, id, action)
  {
    hide Conclude, EntitiesLogged, ProgressLogged, LogGrows, EntitiesRecorded, ProgressRecorded, TellsCommand,
      NewEvents;
    var h, e, p := Headed(scripted), EntitiesLogged(a, scripted), ProgressLogged(a, scripted);
    var after := Conclude(a, scripted, id, action);
    CommandFrame(a, scripted, id, action);
    EntityPart(a, scripted);
    ProgressPart(a, scripted);
    LoggedOnly(a, scripted);
    ClosingEvent(a, scripted, id, action);
    var x, y, z := NewEvents(h, e), NewEvents(e, p), NewEvents(p, after);
    Pieces(x, y, z);
    PiecesHead(x, y, z, after.head);
    RecordOf(a, scripted, x, y, z, after.head, id, action);
    assert CommandRecord(a, scripted, NewEvents(scripted, after), |x|, after.head, id, action);
  }

  lemma RecordOf(
    a: World, b: World, x: seq<Event>, y: seq<Event>, z: seq<Event>, head: nat, id: nat, action: string)
    requires EntitiesRecorded(a, b, x) && ProgressRecorded(a, b, y) && |z| == 1 && TellsCommand(z[0], id, action)
    requires forall i :: 0 <= i < |x + y + z| ==> (x + y + z)[i].head == head
    ensures CommandRecord(a, b, x + y + z, |x|, head, id, action)
  {
    hide EntitiesRecorded, ProgressRecorded, TellsCommand;
    Pieces(x, y, z);
  }

  lemma CommandFrame(a: World, scripted: World, id: nat, action: string)
    ensures var after := Conclude(a, scripted, id, action);
      && LogGrows(scripted, after) && after.head == scripted.head + 1
      && after.entities == scripted.entities && after.progress == scripted.progress
      && NewEvents(scripted, after) ==
         NewEvents(Headed(scripted), EntitiesLogged(a, scripted))
         + NewEvents(EntitiesLogged(a, scripted), ProgressLogged(a, scripted))
         + NewEvents(ProgressLogged(a, scripted), after)
  {
    hide Conclude, EntitiesLogged, ProgressLogged, LogGrows;
    ConcludeGrows(a, scripted, id, action);
  }

  lemma ClosingEvent(a: World, scripted: World, id: nat, action: string)
    ensures var p, after := ProgressLogged(a, scripted), Conclude(a, scripted, id, action);
      && |NewEvents(p, after)| == 1 && TellsCommand(NewEvents(p, after)[0], id, action)
      && NewEvents(p, after)[0].head == p.head
  {
    hide Conclude, ProgressLogged, LogGrows;
    ConcludeEnds(a, scripted, id, action);
    AppendGrows(ProgressLogged(a, scripted), COMMAND_EXECUTED, Some(id), Obj(map["action" := Str(action)]));
  }

  lemma Pieces(x: seq<Event>, y: seq<Event>, z: seq<Event>)
    requires |z| == 1
    ensures (x + y + z)[..|x|] == x && (x + y + z)[|x|..|x + y + z| - 1] == y
    ensures (x + y + z)[|x + y + z| - 1] == z[0]
  {
  }

  lemma PiecesHead(x: seq<Event>, y: seq<Event>, z: seq<Event>, head: nat)
    requires forall i :: 0 <= i < |x| ==> x[i].head == head
    requires forall i :: 0 <= i < |y| ==> y[i].head == head
    requires forall i :: 0 <= i < |z| ==> z[i].head == head
    ensures forall i :: 0 <= i < |x + y + z| ==> (x + y + z)[i].head == head
  {
  }

  /** A command whose result has no JSON form fails after it has changed the world, and logged itself. */
  lemma LateFailureIsLogged(env: Env, w: World, id: nat, action: string, args: Json)
    requires ContractSource(w, id).Some?
    requires var outcome := env.script(w, id, ContractSource(w, id).value, action, args);
      outcome.Finished? && outcome.result.None?
    ensures var done := Execute(env, w, id, action, args, true);
      && done.receipt.None? && w.head < done.world.head && |w.events| < |done.world.events|
      && TellsCommand(done.world.events[|done.world.events| - 1], id, action)
  {
    hide Conclude, PerformAll, Root, ProgressLogged, LogExact;
    var calls := env.script(w, id, ContractSource(w, id).value, action, args).calls;
    var scripted := PerformAll(w, id, calls);
    ScriptKeepsHistory(w, id, calls);
    ConcludeGrows(w, scripted, id, action);
    ConcludeEnds(w, scripted, id, action);
  }

  // ---------- over runs ----------

  /** Some event from `n` on names the entity. */
  ghost predicate NamedFrom(events: seq<Event>, n: nat, id: nat) {
    exists i :: n <= i < |events| && events[i].kind == "entity_changed" && events[i].entityId == Some(id)
  }

  lemma CommandNames(env: Env, w: World, id: nat, action: string, args: Json, x: nat)
    requires EntityDiffers(w, Execute(env, w, id, action, args, true).world, x)
    ensures NamedFrom(Execute(env, w, id, action, args, true).world.events, |w.events|, x)
  {
    hide Conclude, PerformAll, Root;
    var calls := env.script(w, id, ContractSource(w, id).value, action, args).calls;
    CallsName(w, id, calls, action, x);
  }

  lemma CallsName(w: World, id: nat, calls: seq<Call>, action: string, x: nat)
    requires EntityDiffers(w, Conclude(w, PerformAll(w, id, calls), id, action), x)
    ensures NamedFrom(Conclude(w, PerformAll(w, id, calls), id, action).events, |w.events|, x)
  {
    hide Conclude, PerformAll, LogExact;
    var scripted := PerformAll(w, id, calls);
    var after := Conclude(w, scripted, id, action);
    ScriptKeepsHistory(w, id, calls);
    ScriptKeepsProgressKeys(w, id, calls);
    CommandIsRecorded(w, scripted, id, action);
    var events := NewEvents(scripted, after);
    var n :| CommandRecord(w, scripted, events, n, after.head, id, action);
    var ids :| EntityRecord(w, scripted, events[..n], ids);
    assert EntityDiffers(w, scripted, x) && x in ids;
    var i :| 0 <= i < |ids| && ids[i] == x;
    assert TellsEntity(w, scripted, events[..n][i], x);
    assert after.events[|scripted.events| + i] == events[i];
  }

  lemma CommitNames(env: Env, w: World, write: Write, saved: bool, x: nat)
    requires EntityDiffers(w, Commit(env, w, write, saved), x)
    requires !(write.CreateEntityWrite? && x == w.nextEntityId)
    ensures NamedFrom(Commit(env, w, write, saved).events, |w.events|, x)
  {
    hide Execute, Root, Valid;
    match write
    case CommandWrite(id, action, args) => CommandNames(env, w, id, action, args, x);
    case TransactionWrite(tx) =>
      TransactionWraps(env, w, tx);
      var run := Execute(env, w, tx.entityId, tx.action, tx.args, true).world;
      CommandNames(env, w, tx.entityId, tx.action, tx.args, x);
      var i :| |w.events| <= i < |run.events| && run.events[i].kind == "entity_changed"
        && run.events[i].entityId == Some(x);
      assert Commit(env, w, write, saved).events[i] == run.events[i];
  }

  /** Every entity that differs between start and end of a run is named on the way, or was created administratively. */
  lemma {:induction false} RunNames(env: Env, w: World, writes: Script, x: nat)
    requires EntityDiffers(w, Run(env, w, writes), x)
    ensures NamedFrom(Run(env, w, writes).events, |w.events|, x) || x in AdminCreated(env, w, writes)
  {
    hide Commit, Commits, LogExact;
    var n := |writes| - 1;
    var init, last := writes[..n], writes[n];
    var p, after := Run(env, w, init), Run(env, w, writes);
    RunGrows(env, w, init);
    CommitKeepsLog(env, p, last.0, last.1);
    if EntityDiffers(w, p, x) {
      RunNames(env, w, init, x);
      if NamedFrom(p.events, |w.events|, x) {
        var i :| |w.events| <= i < |p.events| && p.events[i].kind == "entity_changed"
          && p.events[i].entityId == Some(x);
        assert after.events[i] == p.events[i];
      }
    } else {
      assert EntityDiffers(p, after, x);
      if last.0.CreateEntityWrite? && x == p.nextEntityId {
        ChangesOnlyWhenCommitted(env, p, last.0, last.1);
      } else {
        CommitNames(env, p, last.0, last.1, x);
        var i :| |p.events| <= i < |after.events| && after.events[i].kind == "entity_changed"
          && after.events[i].entityId == Some(x);
        assert |w.events| <= i;
      }
    }
  }

  lemma ChangesOnlyWhenCommitted(env: Env, w: World, write: Write, saved: bool)
    ensures Commit(env, w, write, saved) != w ==> Commits(env, w, write, saved)
  {
  }

  lemma {:induction false} RunGrows(env: Env, w: World, writes: Script)
    ensures LogGrows(w, Run(env, w, writes))
  {
    hide Commit, LogExact;
    if writes == [] {
    } else {
      var init, last := writes[..|writes| - 1], writes[|writes| - 1];
      RunGrows(env, w, init);
      CommitKeepsLog(env, Run(env, w, init), last.0, last.1);
      GrowsTransitive(w, Run(env, w, init), Run(env, w, writes));
    }
  }
}
