/** Moving legacy actor inventories into the inventory index (src/migration.rs). */
module Migration {
  import opened Common
  import opened Json
  import opened QuestGraph
  import opened Model
  import opened Validation
  import opened HostOps
  import opened Runtime
  import opened Executor

  const INVENTORY := "inventory"

  // ---------- what the migration means ----------

  predicate LegacyActor(w: World, a: nat) {
    IsA(w.entities, a, Actor) && INVENTORY in w.entities[a].data
  }

  predicate IsListing(v: Json) {
    v.Arr? && forall i :: 0 <= i < |v.items| ==> AsU64(v.items[i]).Some?
  }

  function Numbers(items: seq<Json>): (ids: seq<nat>)
    requires forall i :: 0 <= i < |items| ==> AsU64(items[i]).Some?
    ensures |ids| == |items| && forall i :: 0 <= i < |ids| ==> Some(ids[i]) == AsU64(items[i])
  {
    if items == [] then [] else [AsU64(items[0]).value] + Numbers(items[1..])
  }

  /** The items a legacy actor lists, as far as the list can be read. */
  function Listing(w: World, a: nat): seq<nat>
    requires LegacyActor(w, a)
  {
    var v := w.entities[a].data[INVENTORY];
    if IsListing(v) then Numbers(v.items) else []
  }

  predicate Claims(w: World, a: nat, item: nat) {
    LegacyActor(w, a) && item in Listing(w, a)
  }

  /** One actor's list: readable, without repetition, and of existing items. */
  ghost predicate ListOk(w: World, a: nat)
    requires LegacyActor(w, a)
  {
    && IsListing(w.entities[a].data[INVENTORY])
    && Distinct(Listing(w, a))
    && forall i :: i in Listing(w, a) ==> IsA(w.entities, i, Item)
  }

  /** Every list is in order and no item is claimed twice. */
  ghost predicate Collectable(w: World) {
    && (forall a {:trigger ListOk(w, a)} :: LegacyActor(w, a) ==> ListOk(w, a))
    && (forall a, b, i {:trigger Claims(w, a, i), Claims(w, b, i)} :: Claims(w, a, i) && Claims(w, b, i) ==> a == b)
  }

  function LegacyActors(w: World): set<nat> {
    set a | a in w.entities && LegacyActor(w, a)
  }

  ghost predicate Claimed(w: World, done: set<nat>, item: nat) {
    exists a :: a in done && Claims(w, a, item)
  }

  ghost function Claimant(w: World, done: set<nat>, item: nat): (a: nat)
    requires Claimed(w, done, item)
    ensures a in done && Claims(w, a, item)
  {
    var a :| a in done && Claims(w, a, item);
    a
  }

  /** An entity once the actors in `done` are migrated. */
  ghost function Moved(w: World, done: set<nat>, k: nat): Entity
    requires k in w.entities
  {
    var e := w.entities[k];
    e.(data := if k in done then e.data - {INVENTORY} else e.data,
       location := if Claimed(w, done, k) then Some(Claimant(w, done, k)) else e.location)
  }

  /** `contains` before each `push`. */
  function AddAll(items: seq<nat>, more: seq<nat>): seq<nat>
    decreases |more|
  {
    if more == [] then items
    else AddAll(if more[0] in items then items else items + [more[0]], more[1..])
  }

  ghost function MoveAll(w: World, done: set<nat>): World
    requires forall a :: a in done ==> LegacyActor(w, a)
  {
    w.(entities := map k | k in w.entities :: Moved(w, done, k),
       inventories := map o | o in w.inventories.Keys + done ::
         if o in done then AddAll(Items(w.inventories, o), Listing(w, o)) else w.inventories[o])
  }

  datatype Outcome = Rejected | Migrated(world: World, changed: bool)

  /** `migrate_legacy_inventories`. */
  ghost function Migrate(w: World): Outcome {
    if !Collectable(w) then Rejected
    else if LegacyActors(w) == {} then Migrated(w, false)
    else
      var after := MoveAll(w, LegacyActors(w)).(head := w.head + 1);
      if w.head + 1 <= MAX_U64 && LocationsOk(after.entities) && InventoriesOk(after.entities, after.inventories)
      then Migrated(after, true)
      else Rejected
  }

  // ---------- the collecting loops ----------

  datatype Move = Move(actor: nat, items: seq<nat>)

  /** Reads one actor's list; every item in it must be new to `claimedBy`. */
  method CollectOne(w: World, a: nat, claimedBy: map<nat, nat>)
    returns (ids: Option<seq<nat>>, claimedBy': map<nat, nat>)
    requires LegacyActor(w, a)
    ensures ids.Some? <==> ListOk(w, a) && forall i :: i in Listing(w, a) ==> i !in claimedBy
    ensures ids.Some? ==> ids.value == Listing(w, a) && claimedBy'.Keys == claimedBy.Keys + Elements(Listing(w, a))
  {
    claimedBy' := claimedBy;
    var value := w.entities[a].data[INVENTORY];
    if !value.Arr? {
      return None, claimedBy';
    }
    var seen: set<nat> := {};
    var items: seq<nat> := [];
    for n := 0 to |value.items|
      invariant forall i :: 0 <= i < n ==> AsU64(value.items[i]).Some?
      invariant |items| == n && forall i :: 0 <= i < n ==> Some(items[i]) == AsU64(value.items[i])
      invariant seen == Elements(items) && Distinct(items)
      invariant forall i :: i in items ==> IsA(w.entities, i, Item) && i !in claimedBy
      invariant claimedBy'.Keys == claimedBy.Keys + seen
    {
      if AsU64(value.items[n]).None? {
        return None, claimedBy';
      }
      var item := AsU64(value.items[n]).value;
      ghost var listed := Listing(w, a);
      if IsListing(value) {
        assert listed[n] == item && forall i :: 0 <= i < n ==> listed[i] == items[i];
      }
      if item in seen {
        assert exists j :: 0 <= j < n && items[j] == item;
        return None, claimedBy';
      }
      if !IsA(w.entities, item, Item) {
        return None, claimedBy';
      }
      if item in claimedBy' {
        return None, claimedBy';
      }
      claimedBy' := claimedBy'[item := a];
      seen := seen + {item};
      items := items + [item];
    }
    assert items == Listing(w, a);
    return Some(items), claimedBy';
  }

  ghost predicate ListsOk(w: World, done: set<nat>) {
    forall a {:trigger LegacyActor(w, a)} :: a in done ==> LegacyActor(w, a) && ListOk(w, a)
  }

  ghost predicate ClaimsRecorded(w: World, done: set<nat>, claimedBy: map<nat, nat>) {
    forall i {:trigger Claimed(w, done, i)} :: i in claimedBy <==> Claimed(w, done, i)
  }

  ghost predicate Disjoint(w: World, done: set<nat>) {
    forall a, b, i {:trigger Claims(w, a, i), Claims(w, b, i)} ::
      a in done && b in done && Claims(w, a, i) && Claims(w, b, i) ==> a == b
  }

  ghost predicate MovesRecorded(w: World, done: set<nat>, moves: seq<Move>) {
    && (forall j :: 0 <= j < |moves| ==>
      moves[j].actor in done && LegacyActor(w, moves[j].actor) && moves[j].items == Listing(w, moves[j].actor))
    && (forall i, j :: 0 <= i < j < |moves| ==> moves[i].actor != moves[j].actor)
    && Elements(Actors(moves)) == done
  }

  /** What is known after some actors: their lists are in order, disjoint, and recorded. */
  ghost predicate Collected(w: World, done: set<nat>, claimedBy: map<nat, nat>, moves: seq<Move>) {
    ListsOk(w, done) && ClaimsRecorded(w, done, claimedBy) && Disjoint(w, done) && MovesRecorded(w, done, moves)
  }

  function Actors(moves: seq<Move>): seq<nat> {
    if moves == [] then [] else Actors(moves[..|moves| - 1]) + [moves[|moves| - 1].actor]
  }

  lemma ActorsExtend(moves: seq<Move>, m: Move)
    ensures Elements(Actors(moves + [m])) == Elements(Actors(moves)) + {m.actor}
  {
    var all := moves + [m];
    assert all[..|all| - 1] == moves;
    ElementsAppend(Actors(moves), [m.actor]);
  }

  lemma ClaimedMore(w: World, done: set<nat>, a: nat, i: nat)
    ensures Claimed(w, done + {a}, i) <==> Claimed(w, done, i) || Claims(w, a, i)
  {
    hide Claims;
    if Claimed(w, done + {a}, i) {
      var b :| b in done + {a} && Claims(w, b, i);
      assert b in done ==> Claimed(w, done, i);
    }
    if Claimed(w, done, i) {
      var b :| b in done && Claims(w, b, i);
      assert b in done + {a};
    }
    if Claims(w, a, i) {
      assert a in done + {a};
    }
  }

  lemma RecordedMore(w: World, done: set<nat>, moves: seq<Move>, a: nat)
    requires LegacyActor(w, a) && a !in done && MovesRecorded(w, done, moves)
    ensures MovesRecorded(w, done + {a}, moves + [Move(a, Listing(w, a))])
  {
    hide LegacyActor, Listing, Elements, Actors;
    ActorsExtend(moves, Move(a, Listing(w, a)));
    var moves' := moves + [Move(a, Listing(w, a))];
    assert forall j :: 0 <= j < |moves'| ==>
      && moves'[j].actor in done + {a} && LegacyActor(w, moves'[j].actor)
      && moves'[j].items == Listing(w, moves'[j].actor);
    assert forall i, j :: 0 <= i < j < |moves'| ==> moves'[i].actor != moves'[j].actor;
  }

  lemma ListsMore(w: World, done: set<nat>, a: nat)
    requires ListsOk(w, done) && LegacyActor(w, a) && ListOk(w, a)
    ensures ListsOk(w, done + {a})
  {
    hide ListOk, LegacyActor;
    forall b | b in done + {a}
      ensures LegacyActor(w, b) && ListOk(w, b)
    {
      if b != a {
        assert b in done;
      }
    }
  }

  lemma ClaimsMore(w: World, done: set<nat>, claimedBy: map<nat, nat>, a: nat, claimedBy': map<nat, nat>)
    requires ClaimsRecorded(w, done, claimedBy) && LegacyActor(w, a)
    requires claimedBy'.Keys == claimedBy.Keys + Elements(Listing(w, a))
    ensures ClaimsRecorded(w, done + {a}, claimedBy')
  {
    hide LegacyActor, Listing, Claimed;
    forall i
      ensures i in claimedBy' <==> Claimed(w, done + {a}, i)
    {
      ClaimedMore(w, done, a, i);
      assert i in claimedBy <==> Claimed(w, done, i);
    }
  }

  lemma DisjointMore(w: World, done: set<nat>, claimedBy: map<nat, nat>, a: nat)
    requires ClaimsRecorded(w, done, claimedBy) && Disjoint(w, done) && LegacyActor(w, a)
    requires forall i :: i in Listing(w, a) ==> i !in claimedBy
    ensures Disjoint(w, done + {a})
  {
    hide LegacyActor, Listing, Claimed;
    forall b, c, i | b in done + {a} && c in done + {a} && Claims(w, b, i) && Claims(w, c, i)
      ensures b == c
    {
      assert i in claimedBy <==> Claimed(w, done, i);
      ClaimedBy(w, done, b, i);
      ClaimedBy(w, done, c, i);
    }
  }

  lemma CollectedMore(
    w: World, done: set<nat>, claimedBy: map<nat, nat>, moves: seq<Move>, a: nat, claimedBy': map<nat, nat>)
    requires Collected(w, done, claimedBy, moves) && LegacyActor(w, a) && a !in done && ListOk(w, a)
    requires forall i :: i in Listing(w, a) ==> i !in claimedBy
    requires claimedBy'.Keys == claimedBy.Keys + Elements(Listing(w, a))
    ensures Collected(w, done + {a}, claimedBy', moves + [Move(a, Listing(w, a))])
  {
    RecordedMore(w, done, moves, a);
    ClaimsMore(w, done, claimedBy, a, claimedBy');
    DisjointMore(w, done, claimedBy, a);
    ListsMore(w, done, a);
    hide ListOk, LegacyActor, Listing, ListsOk, ClaimsRecorded, Disjoint, MovesRecorded;
  }

  lemma ClaimedBy(w: World, done: set<nat>, a: nat, i: nat)
    ensures a in done && Claims(w, a, i) ==> Claimed(w, done, i)
  {
  }

  /** The legacy actors among the first ids. */
  ghost predicate DoneUpTo(w: World, ids: seq<nat>, n: nat, done: set<nat>)
    requires n <= |ids|
  {
    forall a :: a in done <==> a in ids[..n] && LegacyActor(w, a)
  }

  lemma DoneNext(w: World, ids: seq<nat>, n: nat, done: set<nat>)
    requires n < |ids| && DoneUpTo(w, ids, n, done) && Rising(ids)
    ensures ids[n] !in done
    ensures DoneUpTo(w, ids, n + 1, if LegacyActor(w, ids[n]) then done + {ids[n]} else done)
  {
    hide LegacyActor;
    assert ids[..n + 1] == ids[..n] + [ids[n]];
    assert ids[n] !in ids[..n];
  }

  lemma AllDone(w: World, ids: seq<nat>, done: set<nat>)
    requires Elements(ids) == w.entities.Keys && DoneUpTo(w, ids, |ids|, done)
    ensures done == LegacyActors(w)
  {
    assert ids[..|ids|] == ids;
    forall a
      ensures a in done <==> a in LegacyActors(w)
    {
      assert a in w.entities <==> a in Elements(ids);
    }
  }

  lemma NoneCollected(w: World, ids: seq<nat>)
    ensures Collected(w, {}, map[], []) && DoneUpTo(w, ids, 0, {})
  {
  }

  /** `collect_legacy_inventories`: the actors in id order, or a refusal. */
  method Collect(w: World) returns (moves: Option<seq<Move>>)
    requires forall k :: k in w.entities ==> w.entities[k].id == k
    ensures moves.Some? <==> Collectable(w)
    ensures moves.Some? ==> exists claimedBy :: Collected(w, LegacyActors(w), claimedBy, moves.value)
  {
    var found: seq<Move> := [];
    var claimedBy: map<nat, nat> := map[];
    var ids := SortIds(w.entities.Keys);
    assert forall n :: 0 <= n < |ids| ==> ids[n] in Elements(ids);
    ghost var done: set<nat> := {};
    NoneCollected(w, ids);
    assert Rising(ids);
    hide ListOk, Collected, Listing, Collectable, DoneUpTo, Rising, Elements;
    for n := 0 to |ids|
      invariant DoneUpTo(w, ids, n, done)
      invariant Collected(w, done, claimedBy, found)
    {
      var k := ids[n];
      DoneNext(w, ids, n, done);
      if LegacyActor(w, k) {
        hide LegacyActor;
        var items, next := CollectOne(w, w.entities[k].id, claimedBy);
        if items.None? {
          NotCollectable(w, done, claimedBy, found, k);
          return None;
        }
        CollectedMore(w, done, claimedBy, found, k, next);
        found := found + [Move(k, items.value)];
        claimedBy := next;
        done := done + {k};
      }
    }
    AllDone(w, ids, done);
    AllCollected(w, claimedBy, found);
    return Some(found);
  }

  lemma NotCollectable(w: World, done: set<nat>, claimedBy: map<nat, nat>, moves: seq<Move>, a: nat)
    requires Collected(w, done, claimedBy, moves) && LegacyActor(w, a) && a !in done
    requires !(ListOk(w, a) && forall i :: i in Listing(w, a) ==> i !in claimedBy)
    ensures !Collectable(w)
  {
    hide ListOk, LegacyActor, Listing;
    if ListOk(w, a) {
      var i :| i in Listing(w, a) && i in claimedBy;
      assert Claimed(w, done, i);
      var b :| b in done && Claims(w, b, i);
      assert Claims(w, a, i);
    }
  }

  lemma AllCollected(w: World, claimedBy: map<nat, nat>, moves: seq<Move>)
    requires Collected(w, LegacyActors(w), claimedBy, moves)
    ensures Collectable(w)
  {
    hide ListOk, Listing;
    forall a, b, i | Claims(w, a, i) && Claims(w, b, i)
      ensures a == b
    {
      assert a in LegacyActors(w) && b in LegacyActors(w);
    }
  }

  // ---------- the moving loops ----------

  lemma SoleClaimant(w: World, done: set<nat>, a: nat, k: nat)
    requires Collectable(w) && a in done && Claims(w, a, k)
    ensures Claimed(w, done, k) && Claimant(w, done, k) == a
  {
    hide ListOk;
  }

  /** What the turn of actor `a` does to an entity. */
  function Stepped(e: Entity, k: nat, a: nat, items: seq<nat>): Entity {
    if k == a then e.(data := e.data - {INVENTORY})
    else if k in items then e.(location := Some(a))
    else e
  }

  /** Migrating one more actor. */
  lemma MovedStep(w: World, done: set<nat>, a: nat, k: nat)
    requires Collectable(w) && LegacyActor(w, a) && a !in done && k in w.entities
    requires forall b :: b in done ==> LegacyActor(w, b)
    ensures Moved(w, done + {a}, k) == Stepped(Moved(w, done, k), k, a, Listing(w, a))
  {
    hide Collectable, Listing, IsListing;
    ClaimedMore(w, done, a, k);
    ClaimsItems(w, k);
    if Claims(w, a, k) {
      SoleClaimant(w, done + {a}, a, k);
    } else if Claimed(w, done, k) {
      var b := Claimant(w, done, k);
      SoleClaimant(w, done + {a}, b, k);
    }
  }

  /** Only items are claimed, so no actor moves. */
  lemma ClaimsItems(w: World, k: nat)
    requires Collectable(w)
    ensures forall a :: Claims(w, a, k) ==> IsA(w.entities, k, Item)
  {
    forall a | Claims(w, a, k)
      ensures IsA(w.entities, k, Item)
    {
      assert ListOk(w, a);
    }
  }

  lemma SteppedMore(e: Entity, k: nat, a: nat, items: seq<nat>, item: nat)
    requires item != a
    ensures Stepped(e, k, a, items + [item]) ==
      if k == item then Stepped(e, k, a, items).(location := Some(a)) else Stepped(e, k, a, items)
    ensures Stepped(e, k, a, []) == if k == a then e.(data := e.data - {INVENTORY}) else e
  {
  }

  lemma SteppedAll(entities: map<nat, Entity>, entities': map<nat, Entity>, m: Move, before: seq<nat>, item: nat)
    requires entities'.Keys == entities.Keys && item in entities && item != m.actor
    requires forall k :: k in entities ==> entities'[k] == Stepped(entities[k], k, m.actor, before)
    ensures var next := entities'[item := entities'[item].(location := Some(m.actor))];
      next.Keys == entities.Keys
      && forall k :: k in entities ==> next[k] == Stepped(entities[k], k, m.actor, before + [item])
  {
    hide Stepped;
    forall k | k in entities
      ensures Stepped(entities[k], k, m.actor, before + [item]) ==
        if k == item then entities'[k].(location := Some(m.actor)) else entities'[k]
    {
      SteppedMore(entities[k], k, m.actor, before, item);
    }
  }

  /** One actor's turn: the list leaves its data, and each item goes to its inventory and location. */
  method ApplyMove(entities: map<nat, Entity>, inventories: map<nat, seq<nat>>, m: Move)
    returns (entities': map<nat, Entity>, inventories': map<nat, seq<nat>>)
    requires m.actor in entities && forall i :: i in m.items ==> i in entities && i != m.actor
    ensures entities'.Keys == entities.Keys
    ensures forall k :: k in entities ==> entities'[k] == Stepped(entities[k], k, m.actor, m.items)
    ensures inventories' == inventories[m.actor := AddAll(Items(inventories, m.actor), m.items)]
  {
    var actor := entities[m.actor];
    entities' := entities[m.actor := actor.(data := actor.data - {INVENTORY})];
    var inventory := Items(inventories, m.actor);
    forall k | k in entities
      ensures entities'[k] == Stepped(entities[k], k, m.actor, m.items[..0])
    {
    }
    hide Stepped;
    for n := 0 to |m.items|
      invariant entities'.Keys == entities.Keys
      invariant forall k :: k in entities ==> entities'[k] == Stepped(entities[k], k, m.actor, m.items[..n])
      invariant AddAll(Items(inventories, m.actor), m.items) == AddAll(inventory, m.items[n..])
    {
      var item := m.items[n];
      assert m.items[..n + 1] == m.items[..n] + [item];
      assert m.items[n..][1..] == m.items[n + 1..];
      if item !in inventory {
        inventory := inventory + [item];
      }
      assert item in m.items;
      SteppedAll(entities, entities', m, m.items[..n], item);
      entities' := entities'[item := entities'[item].(location := Some(m.actor))];
    }
    assert m.items[..|m.items|] == m.items && m.items[|m.items|..] == [];
    inventories' := inventories[m.actor := inventory];
  }

  ghost predicate MovesOf(w: World, moves: seq<Move>) {
    && (forall j :: 0 <= j < |moves| ==> LegacyActor(w, moves[j].actor) && moves[j].items == Listing(w, moves[j].actor))
    && (forall i, j :: 0 <= i < j < |moves| ==> moves[i].actor != moves[j].actor)
  }

  lemma EntitiesStep(w: World, done: set<nat>, a: nat, entities: map<nat, Entity>)
    requires Collectable(w) && LegacyActor(w, a) && a !in done && forall b :: b in done ==> LegacyActor(w, b)
    requires entities.Keys == w.entities.Keys
    requires forall k :: k in w.entities ==> entities[k] == Stepped(Moved(w, done, k), k, a, Listing(w, a))
    ensures entities == MoveAll(w, done + {a}).entities
  {
    hide Collectable, Listing, Moved, AddAll, Stepped, LegacyActor;
    forall k | k in w.entities
      ensures entities[k] == Moved(w, done + {a}, k)
    {
      MovedStep(w, done, a, k);
    }
  }

  lemma InventoriesStep(w: World, done: set<nat>, a: nat)
    requires LegacyActor(w, a) && a !in done && forall b :: b in done ==> LegacyActor(w, b)
    ensures var before := MoveAll(w, done).inventories;
      MoveAll(w, done + {a}).inventories == before[a := AddAll(Items(before, a), Listing(w, a))]
  {
    hide Listing, Moved, AddAll, LegacyActor;
    assert Items(MoveAll(w, done).inventories, a) == Items(w.inventories, a);
  }

  /** One more move takes the partly migrated world one actor further. */
  lemma MoveAllStep(w: World, done: set<nat>, a: nat, entities: map<nat, Entity>, inventories: map<nat, seq<nat>>)
    requires Collectable(w) && LegacyActor(w, a) && a !in done && forall b :: b in done ==> LegacyActor(w, b)
    requires var before := MoveAll(w, done);
      && entities.Keys == before.entities.Keys
      && (forall k :: k in before.entities ==> entities[k] == Stepped(before.entities[k], k, a, Listing(w, a)))
      && inventories == before.inventories[a := AddAll(Items(before.inventories, a), Listing(w, a))]
    ensures w.(entities := entities, inventories := inventories) == MoveAll(w, done + {a})
  {
    hide Collectable, Listing, Moved, AddAll, Stepped, LegacyActor;
    var before := MoveAll(w, done);
    assert forall k :: k in w.entities ==> k in before.entities && before.entities[k] == Moved(w, done, k);
    EntitiesStep(w, done, a, entities);
    InventoriesStep(w, done, a);
  }

  method ApplyMoves(w: World, moves: seq<Move>) returns (entities: map<nat, Entity>, inventories: map<nat, seq<nat>>)
    requires Collectable(w) && MovesOf(w, moves)
    ensures forall a :: a in Elements(Actors(moves)) ==> LegacyActor(w, a)
    ensures w.(entities := entities, inventories := inventories) == MoveAll(w, Elements(Actors(moves)))
  {
    hide Collectable, Listing, Moved, AddAll, LegacyActor, Stepped, MoveAll, Elements;
    entities, inventories := w.entities, w.inventories;
    NothingMoved(w);
    ghost var done: set<nat> := {};
    for n := 0 to |moves|
      invariant done == Elements(Actors(moves[..n]))
      invariant forall a :: a in done ==> LegacyActor(w, a) && exists j :: 0 <= j < n && moves[j].actor == a
      invariant w.(entities := entities, inventories := inventories) == MoveAll(w, done)
    {
      var m := moves[n];
      ListedItemsExist(w, m.actor);
      SameKeys(w, done);
      var entities', inventories' := ApplyMove(entities, inventories, m);
      MoveAllStep(w, done, m.actor, entities', inventories');
      entities, inventories := entities', inventories';
      done := done + {m.actor};
      assert moves[..n + 1] == moves[..n] + [m];
      ActorsExtend(moves[..n], m);
    }
    assert moves[..|moves|] == moves;
  }

  lemma NothingMoved(w: World)
    ensures MoveAll(w, {}) == w && Elements(Actors([])) == {}
  {
    assert MoveAll(w, {}).entities == w.entities;
    assert MoveAll(w, {}).inventories == w.inventories;
  }

  lemma SameKeys(w: World, done: set<nat>)
    requires forall b :: b in done ==> LegacyActor(w, b)
    ensures MoveAll(w, done).entities.Keys == w.entities.Keys
  {
    hide LegacyActor, Listing, AddAll;
  }

  lemma ListedItemsExist(w: World, a: nat)
    requires Collectable(w) && LegacyActor(w, a)
    ensures a in w.entities && forall i :: i in Listing(w, a) ==> i in w.entities && i != a
  {
    hide Listing;
    assert ListOk(w, a);
  }

  /** All or nothing: the world changes only when the whole migrated candidate passes its checks. */
  method MigrateLegacyInventories(state: WorldState) returns (changed: Option<bool>)
    requires forall k :: k in state.entities ==> state.entities[k].id == k
    modifies state
    ensures match Migrate(old(state.View()))
      case Rejected => changed == None && state.View() == old(state.View())
      case Migrated(after, moved) => changed == Some(moved) && state.View() == after
  {
    hide Collectable, MoveAll, LegacyActor;
    var w := state.View();
    var moves := Collect(w);
    if moves.None? {
      return None;
    }
    CollectedMoves(w, moves.value);
    if moves.value == [] {
      return Some(false);
    }
    assert moves.value[0].actor in LegacyActors(w);
    var entities, inventories := ApplyMoves(w, moves.value);
    if state.head + 1 > MAX_U64 || !LocationsOk(entities) {
      return None;
    }
    SameIds(w, LegacyActors(w));
    var ok := ValidateInventories(entities, inventories);
    if !ok {
      return None;
    }
    state.Assign(w.(entities := entities, inventories := inventories, head := w.head + 1));
    return Some(true);
  }

  lemma CollectedMoves(w: World, moves: seq<Move>)
    requires exists claimedBy :: Collected(w, LegacyActors(w), claimedBy, moves)
    ensures MovesOf(w, moves) && Elements(Actors(moves)) == LegacyActors(w)
    ensures moves == [] <==> LegacyActors(w) == {}
    ensures forall j :: 0 <= j < |moves| ==> moves[j].actor in LegacyActors(w)
  {
    hide ListOk, Listing;
  }

  lemma SameIds(w: World, done: set<nat>)
    requires forall a :: a in done ==> LegacyActor(w, a)
    requires forall k :: k in w.entities ==> w.entities[k].id == k
    ensures forall k :: k in MoveAll(w, done).entities ==> MoveAll(w, done).entities[k].id == k
  {
  }

  // ---------- laws ----------

  /** A migrated world has no legacy lists left, so migrating again changes nothing. */
  lemma MigratingTwice(w: World)
    requires Migrate(w).Migrated?
    ensures LegacyActors(Migrate(w).world) == {}
    ensures Migrate(Migrate(w).world) == Migrated(Migrate(w).world, false)
  {
    hide LocationsOk, InventoriesOk;
    var after := Migrate(w).world;
    forall a
      ensures a !in LegacyActors(after)
    {
      if a in w.entities {
        assert a in LegacyActors(w) <==> LegacyActor(w, a);
      }
    }
    forall a, i
      ensures !Claims(after, a, i)
    {
      assert a !in LegacyActors(after);
    }
    forall a
      ensures !LegacyActor(after, a)
    {
      assert a !in LegacyActors(after);
    }
  }

  lemma {:induction false} AddAllKeeps(items: seq<nat>, more: seq<nat>)
    ensures Elements(AddAll(items, more)) == Elements(items) + Elements(more)
    decreases |more|
  {
    if more == [] {
    } else {
      var next := if more[0] in items then items else items + [more[0]];
      AddAllKeeps(next, more[1..]);
      ElementsAppend(items, [more[0]]);
      ElementsAppend([more[0]], more[1..]);
      assert [more[0]] + more[1..] == more;
      assert Elements([more[0]]) == {more[0]};
    }
  }

  /** Every legacy item ends at its claimant: there, and in no other inventory. */
  lemma ItemsArrive(w: World, a: nat, item: nat)
    requires Migrate(w).Migrated? && Claims(w, a, item)
    ensures var after := Migrate(w).world;
      && item in after.entities && after.entities[item].location == Some(a)
      && forall o: nat :: Holds(after.inventories, o, item) <==> o == a
  {
    hide LocationsOk, Collectable;
    var after := Migrate(w).world;
    assert a in LegacyActors(w);
    ClaimsItems(w, item);
    SoleClaimant(w, LegacyActors(w), a, item);
    AddAllKeeps(Items(w.inventories, a), Listing(w, a));
    assert item in Elements(after.inventories[a]);
    assert Holds(after.inventories, a, item);
  }

  /** The other parts of the world stay, and the head rises by one exactly when some actor was migrated. */
  lemma OnlyIndexMoves(w: World)
    requires Migrate(w).Migrated?
    ensures var after := Migrate(w).world;
      && after == w.(entities := after.entities, inventories := after.inventories, head := after.head)
      && after.head == w.head + (if Migrate(w).changed then 1 else 0)
      && after.entities.Keys == w.entities.Keys
      && (Migrate(w).changed <==> exists a :: LegacyActor(w, a))
  {
    hide LocationsOk, InventoriesOk, Collectable, Listing, Moved, AddAll;
    if Migrate(w).changed {
      var a :| a in LegacyActors(w);
      assert LegacyActor(w, a);
    } else {
      assert forall a :: LegacyActor(w, a) ==> a in LegacyActors(w);
    }
  }

  /** Unclaimed entities stay as they were; a migrated actor loses only its list. */
  lemma UnclaimedStay(w: World, k: nat)
    requires Migrate(w).Migrated? && k in w.entities && forall a :: !Claims(w, a, k)
    ensures k in Migrate(w).world.entities
    ensures Migrate(w).world.entities[k] ==
      if LegacyActor(w, k) then w.entities[k].(data := w.entities[k].data - {INVENTORY}) else w.entities[k]
  {
    hide LocationsOk, InventoriesOk, Collectable, Listing, AddAll;
    assert k in LegacyActors(w) <==> LegacyActor(w, k);
  }

  /** What an inventory already held it still holds. */
  lemma InventoriesGrow(w: World, o: nat, i: nat)
    requires Migrate(w).Migrated? && Holds(w.inventories, o, i)
    ensures Holds(Migrate(w).world.inventories, o, i)
  {
    hide LocationsOk, InventoriesOk, Collectable, Listing, Moved;
    if o in LegacyActors(w) {
      AddAllKeeps(w.inventories[o], Listing(w, o));
      assert i in Elements(w.inventories[o]);
      assert Migrate(w).changed ==> i in Elements(Migrate(w).world.inventories[o]);
    }
  }

  // ---------- what is refused, and in what order items arrive ----------

  /** An actor's old list, as JSON: 64-bit numbers of existing items, each once. */
  ghost predicate ListStands(w: World, a: nat) {
    && a in w.entities && "inventory" in w.entities[a].data
    && var v := w.entities[a].data["inventory"];
       && v.Arr?
       && (forall i :: 0 <= i < |v.items| ==>
         && v.items[i].Int? && 0 <= v.items[i].n < 0x1_0000_0000_0000_0000
         && v.items[i].n in w.entities && w.entities[v.items[i].n].kind == Item)
       && forall i, j :: 0 <= i < j < |v.items| ==> v.items[i] != v.items[j]
  }

  /** The item is somewhere in the actor's old list. */
  ghost predicate Lists(w: World, a: nat, item: nat) {
    && a in w.entities && w.entities[a].kind == Actor && "inventory" in w.entities[a].data
    && w.entities[a].data["inventory"].Arr? && Int(item) in w.entities[a].data["inventory"].items
  }

  lemma ListStandsIff(w: World, a: nat)
    requires LegacyActor(w, a)
    ensures ListOk(w, a) <==> ListStands(w, a)
    ensures ListOk(w, a) ==> forall item :: item in Listing(w, a) <==> Lists(w, a, item)
  {
    var v := w.entities[a].data[INVENTORY];
    if IsListing(v) {
      var ids := Listing(w, a);
      assert forall i :: 0 <= i < |ids| ==> v.items[i] == Int(ids[i]);
      if ListStands(w, a) {
        forall i, j | 0 <= i < j < |ids|
          ensures ids[i] != ids[j]
        {
          assert v.items[i] != v.items[j];
        }
        forall id | id in ids
          ensures IsA(w.entities, id, Item)
        {
          var i :| 0 <= i < |ids| && ids[i] == id;
          assert v.items[i] == Int(id);
        }
      }
      if ListOk(w, a) {
        forall i | 0 <= i < |v.items|
          ensures v.items[i].n in w.entities && w.entities[v.items[i].n].kind == Item
        {
          assert ids[i] in ids && IsA(w.entities, ids[i], Item);
        }
        forall item: nat
          ensures item in ids <==> Lists(w, a, item)
        {
          if Lists(w, a, item) {
            var i :| 0 <= i < |v.items| && v.items[i] == Int(item);
            assert ids[i] == item;
          }
        }
      }
    }
  }

  /** The lists can be collected exactly if each stands and no two name the same item. */
  lemma CollectableIff(w: World)
    ensures Collectable(w) <==>
      && (forall a :: a in w.entities && w.entities[a].kind == Actor && "inventory" in w.entities[a].data ==>
        ListStands(w, a))
      && forall a, b, item :: Lists(w, a, item) && Lists(w, b, item) ==> a == b
  {
    hide ListOk, ListStands, Listing, Lists;
    forall a | LegacyActor(w, a)
      ensures ListOk(w, a) <==> ListStands(w, a)
      ensures ListOk(w, a) ==> forall item :: item in Listing(w, a) <==> Lists(w, a, item)
    {
      ListStandsIff(w, a);
    }
    forall a: nat, item: nat | Lists(w, a, item)
      ensures LegacyActor(w, a)
    {
      ListsLegacy(w, a, item);
    }
    if forall a :: LegacyActor(w, a) ==> ListOk(w, a) {
      forall a: nat, item: nat
        ensures Claims(w, a, item) <==> Lists(w, a, item)
      {
      }
    }
  }

  lemma ListsLegacy(w: World, a: nat, item: nat)
    requires Lists(w, a, item)
    ensures LegacyActor(w, a)
  {
  }

  function Missing(items: seq<nat>, more: seq<nat>): seq<nat> {
    if more == [] then []
    else (if more[0] in items then [] else [more[0]]) + Missing(items, more[1..])
  }

  /** The listed items that were not there yet go behind those that were, in the order of the list. */
  lemma {:induction false} AddAllAppends(items: seq<nat>, more: seq<nat>)
    requires Distinct(more)
    ensures AddAll(items, more) == items + Missing(items, more)
    decreases |more|
  {
    if more == [] {
    } else if more[0] in items {
      AddAllAppends(items, more[1..]);
    } else {
      AddAllAppends(items + [more[0]], more[1..]);
      SameMissing(items, more[0], more[1..]);
      assert items + [more[0]] + Missing(items, more[1..]) == items + ([more[0]] + Missing(items, more[1..]));
    }
  }

  lemma {:induction false} SameMissing(items: seq<nat>, first: nat, more: seq<nat>)
    requires first !in more
    ensures Missing(items + [first], more) == Missing(items, more)
  {
    if more == [] {
    } else {
      SameMissing(items, first, more[1..]);
    }
  }

  /** So a migrated inventory is the old one with what was missing from it behind, in the order of the list. */
  lemma ArrivesInOrder(w: World, a: nat)
    requires Migrate(w).Migrated? && LegacyActor(w, a)
    ensures a in Migrate(w).world.inventories
    ensures Migrate(w).world.inventories[a] ==
      Items(w.inventories, a) + Missing(Items(w.inventories, a), Listing(w, a))
  {
    hide LocationsOk, InventoriesOk, Listing, Moved;
    assert a in LegacyActors(w) && ListOk(w, a);
    AddAllAppends(Items(w.inventories, a), Listing(w, a));
  }

  /** A world without old lists is left alone; any other is migrated exactly if its lists stand and the result does. */
  lemma MigratesIff(w: World)
    ensures LegacyActors(w) == {} ==> Migrate(w) == Migrated(w, false)
    ensures LegacyActors(w) != {} ==>
      var after := MoveAll(w, LegacyActors(w));
      (Migrate(w).Migrated? <==>
        && Collectable(w) && w.head + 1 < 0x1_0000_0000_0000_0000
        && LocationsOk(after.entities) && InventoriesOk(after.entities, after.inventories))
  {
    hide LocationsOk, InventoriesOk, MoveAll, Listing;
    if LegacyActors(w) == {} {
      forall a
        ensures !LegacyActor(w, a)
      {
        assert a !in LegacyActors(w);
      }
    }
  }
}
