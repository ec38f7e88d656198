/**
 Events of the server as the browser's socket handler meets them: which committed events it
 refuses when they arrive live, and that valid runs commit such events.
 */
module LiveEvents {
  import opened Common
  import opened Json
  import opened QuestGraph
  import opened Model
  import opened HostOps
  import opened HostValidity
  import opened Execution
  import opened History
  import opened Receipts
  import opened Snapshots
  import opened CommitValidity
  import EventStream

  /** A committed event is the next step of the stream, refused exactly when it does not parse. */
  lemma EventAppends(w: World, e: Event)
    requires LogExact(w) && e.id == w.nextEventId
    ensures var log, refused := |w.events|, EventStream.RefusedIds(w.events);
      && |w.events + [e]| == log + 1
      && EventStream.RefusedIds(w.events + [e]) ==
         refused + if EventStream.Parses(e) then {} else {log + 1}
  {
    var all := w.events + [e];
    assert all[|w.events|] == e && forall i :: 0 <= i < |w.events| ==> all[i] == w.events[i];
    forall id
      ensures id in EventStream.RefusedIds(all) <==>
        id in EventStream.RefusedIds(w.events) || (id == e.id && !EventStream.Parses(e))
    {
      if id == e.id && !EventStream.Parses(e) {
        assert !EventStream.Parses(all[|w.events|]);
      } else if id in EventStream.RefusedIds(w.events) {
        var i :| 0 <= i < |w.events| && !EventStream.Parses(w.events[i]) && w.events[i].id == id;
        assert !EventStream.Parses(all[i]);
      }
    }
  }

  lemma RefusedAt(events: seq<Event>, i: nat)
    requires i < |events| && !EventStream.Parses(events[i])
    ensures events[i].id in EventStream.RefusedIds(events)
  {
  }

  /** The request's script emits one event and finishes. */
  ghost predicate Emits(env: Env, w: World, id: nat, action: string, args: Json, kind: string, data: Json) {
    && ContractSource(w, id).Some?
    && match env.script(w, id, ContractSource(w, id).value, action, args)
       case Failed => false
       case Finished(calls, messages, result) => calls == [CallEmitEvent(kind, None, data)] && result.Some?
  }

  /** Whatever its data, such an event passes validation and save, and is in the log. */
  lemma AnyDataIsCommitted(env: Env, w: World, id: nat, action: string, args: Json, kind: string, data: Json)
    requires Valid(w, env.blake3) && !OldInventory(w) && IsA(w.entities, id, Actor) && action != ""
    requires Emits(env, w, id, action, args, kind, data) && kind != "" && !Reserved(kind)
    ensures var done := Mutate(env, w, CommandWrite(id, action, args));
      && done.receipt.Some? && Savable(env, done.world)
      && |w.events| < |done.world.events|
      && done.world.events[|w.events|] == Event(w.nextEventId, w.head, kind, None, data)
      && (!data.Obj? ==> w.nextEventId in EventStream.RefusedIds(done.world.events))
  {
    hide Valid, Execute, OldInventory, Behaves, LeavesNoMark, Emits, Conclude;
    EmitsBehaves(env, w, id, action, args, kind, data);
    SafeCommandCommits(env, w, id, action, args);
    EmittedIsLogged(w, id, action, kind, data);
    if !data.Obj? {
      RefusedAt(Mutate(env, w, CommandWrite(id, action, args)).world.events, |w.events|);
    }
  }

  lemma EmitsBehaves(env: Env, w: World, id: nat, action: string, args: Json, kind: string, data: Json)
    requires Emits(env, w, id, action, args, kind, data) && kind != "" && !Reserved(kind)
    ensures Behaves(env, w, id, action, args) && LeavesNoMark(env, w, id, action, args)
    ensures Execute(env, w, id, action, args, true).world == Conclude(w, Append(w, kind, None, data), id, action)
  {
    hide Conclude, ScriptMarks, PerformAll, Append, Root;
    NoMark(w, id, kind, data);
    EmitsOne(w, id, kind, data);
  }

  lemma EmittedIsLogged(w: World, id: nat, action: string, kind: string, data: Json)
    ensures var after := Conclude(w, Append(w, kind, None, data), id, action);
      && |w.events| < |after.events|
      && after.events[|w.events|] == Event(w.nextEventId, w.head, kind, None, data)
  {
    hide Conclude;
    ConcludeGrows(w, Append(w, kind, None, data), id, action);
  }

  lemma EmitsOne(w: World, id: nat, kind: string, data: Json)
    requires kind != "" && !Reserved(kind)
    ensures PerformAll(w, id, [CallEmitEvent(kind, None, data)]) == Append(w, kind, None, data)
  {
    var calls := [CallEmitEvent(kind, None, data)];
    assert calls[1..] == [];
    assert Perform(w, id, calls[0]).world == Append(w, kind, None, data);
  }

  lemma NoMark(w: World, id: nat, kind: string, data: Json)
    ensures !ScriptMarks(w, id, [CallEmitEvent(kind, None, data)])
  {
    assert [CallEmitEvent(kind, None, data)][1..] == [];
  }

  /** Every event with an object for its data and counters that JavaScript holds exactly is accepted live. */
  lemma ObjectEventsParse(e: Event)
    ensures e.data.Obj? && 1 <= e.id < 0x20_0000_0000_0000 && e.head < 0x20_0000_0000_0000 <==> EventStream.Parses(e)
  {
  }

  // ---------- from genesis ----------

  /** Every script emits one event without data. */
  ghost predicate RingsBell(env: Env) {
    forall w, id: nat, source, action, args ::
      env.script(w, id, source, action, args) == Finished([CallEmitEvent("bell", None, Null)], [], Some(Null))
  }

  /** Deploy a contract, create its actor, ring. */
  function BellWrites(): Script {
    [(DeployWrite("bell", 1, ""), true), (CreateEntityWrite(Actor, "admin", Some("bell"), None, map[]), true),
     (CommandWrite(1, "ring", Null), true)]
  }

  /** A run from genesis whose world is valid and whose first event no socket handler accepts. */
  lemma RefusedEventsOccur(env: Env)
    requires RingsBell(env)
    ensures var w := Run(env, Genesis(), BellWrites());
      Valid(w, env.blake3) && LogExact(w) && 1 in EventStream.RefusedIds(w.events)
  {
    var writes := BellWrites();
    EveryRunIsExact(env, writes);
    BellActorReady(env);
    var w := Run(env, Genesis(), writes[..2]);
    assert writes[..|writes| - 1] == writes[..2];
    assert Emits(env, w, 1, "ring", Null, "bell", Null);
    assert !Reserved("bell") by {
      assert "bell"[0] == 'b';
      assert ENTITY_CHANGED[0] == 'e' && PROGRESS_CHANGED[0] == 'q';
      assert COMMAND_EXECUTED[0] == 'c' && TX_EXECUTED[0] == 't';
    }
    hide Valid, Execute, OldInventory, Emits, LogExact;
    AnyDataIsCommitted(env, w, 1, "ring", Null, "bell", Null);
    SavableIsValid(env, Mutate(env, w, CommandWrite(1, "ring", Null)).world);
  }

  lemma SavableIsValid(env: Env, w: World)
    requires Savable(env, w)
    ensures Valid(w, env.blake3)
  {
    hide Valid;
  }

  lemma BellActorReady(env: Env)
    ensures var w := Run(env, Genesis(), BellWrites()[..2]);
      && Valid(w, env.blake3) && !OldInventory(w) && IsA(w.entities, 1, Actor) && ContractSource(w, 1).Some?
      && w.events == [] && w.nextEventId == 1
  {
    var one, two := BellWrites()[..1], BellWrites()[..2];
    assert one[..0] == [] && two[..1] == one && one[0] == BellWrites()[0] && two[1] == BellWrites()[1];
    var g := Genesis();
    GenesisValid(env.blake3);
    DeployKeepsValid(env, g, "bell", 1, "");
    var deployed := Deploy(env, g, "bell", 1, "").world;
    CreateEntityValidIff(deployed, Actor, "admin", Some("bell"), None, map[], env.blake3);
    hide Valid;
    assert Run(env, g, []) == g;
    assert Run(env, g, one) == deployed;
    assert Run(env, g, two) == CreateEntity(deployed, Actor, "admin", Some("bell"), None, map[]).world;
  }

  /** Deploying a new version keeps every check. */
  lemma DeployKeepsValid(env: Env, w: World, name: string, version: nat, source: string)
    requires Valid(w, env.blake3) && name != "" && Deploy(env, w, name, version, source).ok
    ensures Valid(Deploy(env, w, name, version, source).world, env.blake3)
  {
    hide AccountsOk, ProgressOk, ReceiptsOk, LocationsOk, QuestsOk, InventoriesOk, EventShapeOk;
  }
}
