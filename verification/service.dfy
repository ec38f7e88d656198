/**
 Committing and publishing writes (src/rpc.rs, `mutate_and_save`, `publish_new_events` and
 the writing arms of `dispatch`), and whole runs of the server with failed saves, crashes
 and restarts.
 */
module Service {
  import opened Common
  import opened Json
  import opened Model
  import opened HostOps
  import opened Execution
  import opened History
  import opened Receipts
  import opened Runtime
  import opened Executor
  import opened Migration
  import opened Snapshots
  import opened Storage
  import opened Startup

  /**
   The server as seen from outside: its world in memory, what a crash could leave on disk,
   and everything it has promised: receipts answered and events broadcast. `clean` says
   that no rollback has failed since the last durable save or start.
   */
  datatype Node = Node(world: World, disk: Disk, acked: seq<Receipt>, sent: seq<Event>, clean: bool)

  // ---------- one write ----------

  /** The receipts a client may rely on: those of signed transactions, which the world keeps. */
  function Answered(write: Write, r: Receipt): seq<Receipt> {
    if write.TransactionWrite? then [r] else []
  }

  ghost function Published(w: World, write: Write, after: World): seq<Event> {
    if Executes(write) then NewEvents(w, after) else []
  }

  /** `mutate_and_save` then `publish_new_events`, with the save ending as `saved`. */
  ghost predicate Writes(env: Env, n: Node, write: Write, saved: Saved, n': Node) {
    var done := Mutate(env, n.world, write);
    if done.receipt.None? then n' == n
    else
      && Saves(env, n.disk, done.world, saved, n'.disk)
      && match saved
         case Stored =>
           n' == Node(done.world, n'.disk, n.acked + Answered(write, done.receipt.value),
                      n.sent + Published(n.world, write, done.world), true)
         case Refused => n' == n.(disk := n'.disk)
         case Stranded => n' == n.(disk := n'.disk, clean := false)
         case Lost => n' == n.(disk := n'.disk, clean := false)
  }

  method ApplyWrite(env: Env, state: WorldState, write: Write) returns (receipt: Option<Receipt>)
    modifies state
    ensures Executed(state.View(), receipt) == Mutate(env, old(state.View()), write)
  {
    hide Execute, ExecuteTransaction, HostOps.CreateEntity;
    var ok := false;
    match write
    case CreateAccountWrite(name, publicKey, balance) =>
      if name in state.accounts {
        return None;
      }
      state.accounts := state.accounts[name := Account(name, publicKey, 0, balance)];
      state.head := state.head + 1;
      return Some(Receipt("", "", 0, true, [], Null, Root(env, state.View())));
    case DeployWrite(name, version, source) =>
      ok := state.DeployVersion(env, name, version, source);
      return if ok then Some(Receipt("", "", 0, true, [], Null, Root(env, state.View()))) else None;
    case CreateEntityWrite(kind, owner, contract, location, data) =>
      var id := state.NewEntity(kind, owner, contract, location, data);
      return if id.Some? then Some(Receipt("", "", 0, true, [], Null, Root(env, state.View()))) else None;
    case CommandWrite(id, action, args) =>
      receipt := ExecuteInternal(env, state, id, action, args, true);
    case TransactionWrite(tx) =>
      receipt := RunTransaction(env, state, tx);
      if receipt.Some? {
        state.receipts := state.receipts[receipt.value.txId := receipt.value];
      }
  }

  class AppState {
    const store: SnapshotStore
    const allowUnsigned: bool
    var world: World
    var sent: seq<Event>
    ghost var acked: seq<Receipt>
    ghost var clean: bool

    constructor (store: SnapshotStore, world: World, allowUnsigned: bool)
      ensures this.store == store && this.world == world && this.allowUnsigned == allowUnsigned
      ensures sent == [] && acked == [] && clean
    {
      this.store, this.world, this.allowUnsigned := store, world, allowUnsigned;
      sent, acked, clean := [], [], true;
    }

    ghost function View(): Node
      reads this, store.dir
    {
      Node(world, store.dir.View(), acked, sent, clean)
    }

    /** The world in memory is replaced only by one that is durable; otherwise it is put back. */
    method MutateAndSave(write: Write) returns (value: Option<Receipt>, saved: Saved)
      requires store.dir.Valid()
      modifies this`world, this`clean, store.dir
      ensures store.dir.Valid()
      ensures var done := Mutate(store.env, old(world), write);
        if done.receipt.None? then
          value == None && world == old(world) && clean == old(clean) && store.dir.View() == old(store.dir.View())
        else
          && Saves(store.env, old(store.dir.View()), done.world, saved, store.dir.View())
          && value == (if saved.Stored? then done.receipt else None)
          && world == (if saved.Stored? then done.world else old(world))
          && clean == (saved.Stored? || (saved.Refused? && old(clean)))
      ensures
        var copied := DecodeFile(store.env, old(store.dir.primary)).Some? && store.dir.faults == old(store.dir.faults);
        value.Some? && copied ==> store.dir.View().backups == {old(store.dir.primary)}
    {
      hide Mutate, Saves;
      var original := world;
      var candidate := new WorldState(world);
      value := ApplyWrite(store.env, candidate, write);
      world := candidate.View();
      saved := Refused;
      if value.None? {
        world := original;
        return;
      }
      saved := store.Save(world);
      clean := saved.Stored? || (saved.Refused? && clean);
      if !saved.Stored? {
        world := original;
        return None, saved;
      }
    }

    method PublishNewEvents(previousCount: nat)
      requires previousCount <= |world.events|
      modifies this`sent
      ensures sent == old(sent) + world.events[previousCount..]
    {
      for n := previousCount to |world.events|
        invariant sent == old(sent) + world.events[previousCount..n]
      {
        assert world.events[previousCount..n + 1] == world.events[previousCount..n] + [world.events[n]];
        sent := sent + [world.events[n]];
      }
    }

    /** One administrative call, command or transaction, from request to answer. */
    method Handle(write: Write) returns (answer: Option<Receipt>, saved: Saved)
      requires store.dir.Valid()
      modifies this, store.dir
      ensures store.dir.Valid()
      ensures Writes(store.env, old(View()), write, saved, View())
      ensures
        var copied := DecodeFile(store.env, old(store.dir.primary)).Some? && store.dir.faults == old(store.dir.faults);
        answer.Some? && copied ==> store.dir.View().backups == {old(store.dir.primary)}
    {
      hide Mutate, Saves, LogGrows;
      var previousEvents := |world.events|;
      ghost var before := world;
      answer, saved := MutateAndSave(write);
      if answer.Some? {
        MutateGrows(store.env, before, write);
        if Executes(write) {
          PublishNewEvents(previousEvents);
        }
        acked := acked + Answered(write, answer.value);
      }
    }

    /** The transaction endpoint: accounts without a key are served only if the server allows it. */
    method SubmitTransaction(tx: Transaction) returns (answer: Option<Receipt>, saved: Saved)
      requires store.dir.Valid()
      modifies this, store.dir
      ensures store.dir.Valid()
      ensures if !allowUnsigned && tx.from in old(world).accounts && old(world).accounts[tx.from].publicKey.None?
        then answer == None && View() == old(View())
        else Writes(store.env, old(View()), TransactionWrite(tx), saved, View())
    {
      if !allowUnsigned && tx.from in world.accounts && world.accounts[tx.from].publicKey.None? {
        return None, Refused;
      }
      answer, saved := Handle(TransactionWrite(tx));
    }
  }

  /** A write that succeeds in memory extends the event log. */
  lemma MutateGrows(env: Env, w: World, write: Write)
    requires Mutate(env, w, write).receipt.Some?
    ensures w.events <= Mutate(env, w, write).world.events
  {
    hide Execute, ExecuteTransaction, Root, LogExact;
    match write
    case CommandWrite(id, action, args) => ExecuteKeepsHistory(env, w, id, action, args, true);
    case TransactionWrite(tx) => TransactionKeepsHistory(env, w, tx);
    case _ =>
  }

  /**
   A write broadcasts everything it logs and answers every receipt it stores: what was sent
   since some event stays exactly the log since then.
   */
  lemma WriteTellsAll(env: Env, n: Node, write: Write, saved: Saved, n': Node, start: nat)
    requires Writes(env, n, write, saved, n') && start <= |n.world.events| && n.sent == n.world.events[start..]
    ensures start <= |n'.world.events| && n'.sent == n'.world.events[start..]
  {
    hide Mutate, Saves;
    var done := Mutate(env, n.world, write);
    if done.receipt.Some? && saved.Stored? {
      MutateGrows(env, n.world, write);
      if !Executes(write) {
        QuietWrite(env, n.world, write);
      }
      var before, after := n.world.events, done.world.events;
      assert after[start..] == before[start..] + after[|before|..];
    }
  }

  lemma QuietWrite(env: Env, w: World, write: Write)
    requires !Executes(write)
    ensures Mutate(env, w, write).world.events == w.events
    ensures Mutate(env, w, write).world.receipts == w.receipts
  {
  }

  lemma WriteAnswersAll(env: Env, n: Node, write: Write, saved: Saved, n': Node)
    requires Writes(env, n, write, saved, n')
    requires forall id :: id in n.world.receipts ==> n.world.receipts[id] in n.acked
    ensures forall id :: id in n'.world.receipts ==> n'.world.receipts[id] in n'.acked
  {
    hide Saves, Execute, ExecuteTransaction, Root;
    var done := Mutate(env, n.world, write);
    if done.receipt.Some? && saved.Stored? {
      match write
      case CommandWrite(id, action, args) => ExecuteKeepsHistory(env, n.world, id, action, args, true);
      case TransactionWrite(tx) =>
        TransactionShape(env, n.world, tx);
        assert done.receipt.value in Answered(write, done.receipt.value);
      case _ => QuietWrite(env, n.world, write);
    }
  }

  // ---------- runs with crashes ----------

  /** If the write may be saved, what it saves can be read back. */
  ghost predicate WriteReads(env: Env, w: World, write: Write) {
    Savable(env, Mutate(env, w, write).world) ==> Readable(env, Mutate(env, w, write).world)
  }

  function HeldReceipts(w: World): set<Receipt> {
    set id | id in w.receipts && w.receipts[id].txId == id :: w.receipts[id]
  }

  function HeldEvents(w: World): set<Event> {
    set e | e in w.events
  }

  function Surviving<T(==)>(s: seq<T>, held: set<T>): seq<T> {
    if s == [] then [] else (if s[0] in held then [s[0]] else []) + Surviving(s[1..], held)
  }

  /** A crash, then a start that reads the primary and succeeds; what it writes, if anything, can be read back. */
  ghost predicate Restarts(env: Env, n: Node, n': Node) {
    exists p, b :: p in n.disk.primaries && b in n.disk.backups && GoalReads(env, Loads(env, p, b))
      && Booted(env, Loads(env, p, b)) == Some(n'.world)
      && Settled(env, n'.disk, n'.world) && Leaves(env, p, b, n'.disk, Loads(env, p, b))
      && n' == Node(n'.world, n'.disk, n.acked, n.sent, true)
  }

  /** A crash, then such a start that fails or is itself interrupted. */
  ghost predicate StartFails(env: Env, n: Node, n': Node) {
    exists p, b :: p in n.disk.primaries && b in n.disk.backups && GoalReads(env, Loads(env, p, b))
      && Resumes(env, Disk({p}, {b}), n'.disk, Loads(env, p, b)) && Leaves(env, p, b, n'.disk, Loads(env, p, b))
      && n' == n.(disk := n'.disk, clean := false)
  }

  /** Of its promises the server keeps what `w` holds. */
  function Cut(n: Node, w: World): Node {
    n.(acked := Surviving(n.acked, HeldReceipts(w)), sent := Surviving(n.sent, HeldEvents(w)))
  }

  /** A crash, then a start that cannot read the primary and runs on the backup. */
  ghost predicate FallsBack(env: Env, n: Node, n': Node) {
    exists p, b :: p in n.disk.primaries && b in n.disk.backups && GoalReads(env, DecodeFile(env, b))
      && Booted(env, DecodeFile(env, b)) == Some(n'.world)
      && Settled(env, n'.disk, n'.world) && Leaves(env, p, b, n'.disk, DecodeFile(env, b))
      && n' == Cut(n, n'.world).(world := n'.world, disk := n'.disk, clean := true)
  }

  /** A crash, then such a start that fails or is itself interrupted, with the backup perhaps already restored. */
  ghost predicate FallbackFails(env: Env, n: Node, n': Node) {
    exists p, b :: p in n.disk.primaries && b in n.disk.backups && GoalReads(env, DecodeFile(env, b))
      && Resumes(env, Disk({p}, {b}), n'.disk, DecodeFile(env, b)) && Leaves(env, p, b, n'.disk, DecodeFile(env, b))
      && var reached := Booted(env, DecodeFile(env, b));
         n' == (if reached.Some? then Cut(n, reached.value) else n).(disk := n'.disk, clean := false)
  }

  /** The steps in which no primary is unreadable at a start. */
  ghost predicate Reads(env: Env, n: Node, n': Node) {
    || (exists write, saved :: Writes(env, n, write, saved, n') && WriteReads(env, n.world, write))
    || Restarts(env, n, n')
    || StartFails(env, n, n')
  }

  /** All steps in which whatever is saved can be read back. */
  ghost predicate Steps(env: Env, n: Node, n': Node) {
    Reads(env, n, n') || FallsBack(env, n, n') || FallbackFails(env, n, n')
  }

  /** `v` has everything a client of `w` may rely on. */
  ghost predicate Extends(w: World, v: World) {
    && w.events <= v.events
    && forall id :: id in w.receipts ==> id in v.receipts && v.receipts[id] == w.receipts[id]
  }

  ghost predicate Promised(w: World, acked: seq<Receipt>, sent: seq<Event>) {
    (forall r :: r in acked ==> r in HeldReceipts(w)) && (forall e :: e in sent ==> e in HeldEvents(w))
  }

  /** A start that loads this reaches a world with an exact receipt book. */
  ghost predicate BootsWell(env: Env, r: Option<Decoded>) {
    Booted(env, r).Some? && ReceiptBook(Booted(env, r).value)
  }

  /** Such a load, after which every promise is kept. */
  ghost predicate Kept(env: Env, n: Node, r: Option<Decoded>) {
    && BootsWell(env, r)
    && Promised(Booted(env, r).value, n.acked, n.sent)
    && (n.clean ==> Booted(env, r) == Some(n.world) && r.value.world == n.world)
  }

  /** Every file that decodes, as an old backup may have to. */
  ghost predicate FilesBoot(env: Env, disk: Disk) {
    forall f :: f in disk.primaries + disk.backups && DecodeFile(env, f).Some? ==> BootsWell(env, DecodeFile(env, f))
  }

  ghost predicate Sound(env: Env, n: Node) {
    && Valid(n.world, env.blake3) && ReceiptBook(n.world)
    && FilesBoot(env, n.disk)
    && (forall r :: MayLoad(env, n.disk, r) ==> Kept(env, n, r))
    && Promised(n.world, n.acked, n.sent)
  }

  /** A write whose result may be saved extends the world and keeps the receipt book. */
  lemma WriteExtends(env: Env, w: World, write: Write)
    requires ReceiptBook(w) && Mutate(env, w, write).receipt.Some? && Valid(Mutate(env, w, write).world, env.blake3)
    ensures var after := Mutate(env, w, write).world; Extends(w, after) && ReceiptBook(after)
    ensures write.TransactionWrite? ==>
      var r := Mutate(env, w, write).receipt.value;
      r.txId in Mutate(env, w, write).world.receipts && Mutate(env, w, write).world.receipts[r.txId] == r
  {
    hide Valid, Execute, ExecuteTransaction, ReceiptBook, EventsOk, LogGrows;
    MutateGrows(env, w, write);
    CommitKeepsBook(env, w, write, true);
    match write
    case CommandWrite(id, action, args) => ExecuteKeepsHistory(env, w, id, action, args, true);
    case TransactionWrite(tx) => CommittedReceipt(env, w, tx);
    case _ =>
  }

  lemma FreshBoots(env: Env, w: World)
    requires Savable(env, w)
    ensures Booted(env, Some(Fresh(w))) == Some(w)
    ensures Readable(env, w) ==> DecodeFile(env, Some(Encode(env, w))) == Some(Fresh(w))
  {
    hide Valid, OldInventory, Migrate, Readable;
    SavedDecodes(env, w);
    OldInventoryIsLegacy(w);
    NothingToMigrate(w);
  }

  /** The files after a save: old ones, and the new snapshot. */
  lemma SaveKeepsFiles(env: Env, before: Disk, w: World, saved: Saved, after: Disk)
    requires Saves(env, before, w, saved, after) && FilesBoot(env, before)
    requires Savable(env, w) ==> ReceiptBook(w) && Readable(env, w)
    ensures FilesBoot(env, after)
  {
    hide Booted, Savable, ReceiptBook, Decode, MayLoad, Readable, Encode;
    if Savable(env, w) {
      FreshBoots(env, w);
    }
  }

  /** The files after a start: the two it found, and its own snapshot. */
  lemma StartKeepsFiles(env: Env, disk: Disk, p: File, b: File, after: Disk, goal: Option<Decoded>)
    requires FilesBoot(env, disk) && p in disk.primaries && b in disk.backups
    requires Leaves(env, p, b, after, goal) && (Booted(env, goal).Some? ==> BootsWell(env, goal))
    requires GoalReads(env, goal)
    ensures FilesBoot(env, after)
  {
    hide Booted, ReceiptBook, Decode, Readable, Encode, Rewrites;
    if Booted(env, goal).Some? {
      BootedIsSavable(env, goal);
      FreshBoots(env, Booted(env, goal).value);
    }
  }

  lemma BootedIsSavable(env: Env, goal: Option<Decoded>)
    requires Booted(env, goal).Some?
    ensures Savable(env, Booted(env, goal).value)
  {
    hide Valid, OldInventory, Migrate;
    BootedHasNoLists(env, goal);
  }

  lemma ExtendedPromises(w: World, v: World, acked: seq<Receipt>, sent: seq<Event>)
    requires Extends(w, v) && Promised(w, acked, sent)
    ensures Promised(v, acked, sent)
  {
    forall e | e in w.events
      ensures e in v.events
    {
      var i :| 0 <= i < |w.events| && w.events[i] == e;
      assert v.events[i] == e;
    }
  }

  lemma NewPromises(env: Env, w: World, write: Write, n: Node)
    requires ReceiptBook(w) && Mutate(env, w, write).receipt.Some? && Valid(Mutate(env, w, write).world, env.blake3)
    requires Promised(w, n.acked, n.sent)
    ensures var done := Mutate(env, w, write);
      && Promised(done.world, n.acked, n.sent)
      && Promised(done.world, n.acked + Answered(write, done.receipt.value), n.sent + Published(w, write, done.world))
  {
    hide Valid, Mutate, ReceiptBook;
    WriteExtends(env, w, write);
    ExtendedPromises(w, Mutate(env, w, write).world, n.acked, n.sent);
  }

  lemma WriteIsSound(env: Env, n: Node, write: Write, saved: Saved, n': Node)
    requires Sound(env, n) && Writes(env, n, write, saved, n') && WriteReads(env, n.world, write)
    ensures Sound(env, n')
  {
    hide Valid, Mutate, ReceiptBook, MayLoad, OldInventory, Booted, FilesBoot, Promised, Readable, Encode;
    var done := Mutate(env, n.world, write);
    if done.receipt.Some? {
      if Savable(env, done.world) {
        WriteExtends(env, n.world, write);
        NewPromises(env, n.world, write, n);
        FreshBoots(env, done.world);
      }
      SaveKeepsFiles(env, n.disk, done.world, saved, n'.disk);
      forall r | MayLoad(env, n'.disk, r)
        ensures Kept(env, n', r)
      {
        assert r == Some(Fresh(done.world)) || Kept(env, n, r);
      }
    }
  }

  /** What a start settles on boots to itself. */
  lemma SettledBoots(env: Env, disk: Disk, w: World, r: Option<Decoded>)
    requires Settled(env, disk, w) && MayLoad(env, disk, r)
    ensures Booted(env, r) == Some(w) && r.value.world == w
  {
    hide Valid, Migrate, MayLoad;
    NothingToMigrate(w);
  }

  lemma RestartIsSound(env: Env, n: Node, n': Node)
    requires Sound(env, n) && Restarts(env, n, n')
    ensures Sound(env, n')
  {
    hide GoalReads, Valid, ReceiptBook, Loads, Booted, Leaves, FilesBoot, Promised, Settled;
    var p, b :| p in n.disk.primaries && b in n.disk.backups && GoalReads(env, Loads(env, p, b))
      && Booted(env, Loads(env, p, b)) == Some(n'.world)
      && Settled(env, n'.disk, n'.world) && Leaves(env, p, b, n'.disk, Loads(env, p, b))
      && n' == Node(n'.world, n'.disk, n.acked, n.sent, true);
    var goal := Loads(env, p, b);
    assert MayLoad(env, n.disk, goal) && Kept(env, n, goal);
    StartKeepsFiles(env, n.disk, p, b, n'.disk, goal);
    SettledSound(env, n', goal);
  }

  lemma SettledSound(env: Env, n: Node, goal: Option<Decoded>)
    requires BootsWell(env, goal) && Booted(env, goal) == Some(n.world) && Settled(env, n.disk, n.world)
    requires FilesBoot(env, n.disk) && Promised(n.world, n.acked, n.sent)
    ensures Sound(env, n)
  {
    hide ReceiptBook, Booted, FilesBoot, Promised, MayLoad, Valid;
    forall r | MayLoad(env, n.disk, r)
      ensures Kept(env, n, r)
    {
      SettledBoots(env, n.disk, n.world, r);
    }
  }

  lemma FailedStartIsSound(env: Env, n: Node, n': Node)
    requires Sound(env, n) && StartFails(env, n, n')
    ensures Sound(env, n')
  {
    hide GoalReads, Valid, ReceiptBook, Loads, Booted, Leaves, FilesBoot, Promised;
    var p, b :| p in n.disk.primaries && b in n.disk.backups && GoalReads(env, Loads(env, p, b))
      && Resumes(env, Disk({p}, {b}), n'.disk, Loads(env, p, b)) && Leaves(env, p, b, n'.disk, Loads(env, p, b))
      && n' == n.(disk := n'.disk, clean := false);
    var goal := Loads(env, p, b);
    assert MayLoad(env, n.disk, goal) && Kept(env, n, goal);
    StartKeepsFiles(env, n.disk, p, b, n'.disk, goal);
    ResumedSound(env, n, p, b, n', goal);
  }

  /** After an interrupted start every load was possible before, or boots to where the start was going. */
  lemma ResumedSound(env: Env, n: Node, p: File, b: File, n': Node, goal: Option<Decoded>)
    requires Sound(env, n) && p in n.disk.primaries && b in n.disk.backups
    requires Resumes(env, Disk({p}, {b}), n'.disk, goal) && FilesBoot(env, n'.disk)
    requires n'.world == n.world && !n'.clean
    requires forall r :: r in n'.acked ==> r in n.acked
    requires forall e :: e in n'.sent ==> e in n.sent
    requires goal.Some? ==> BootsWell(env, goal) && Promised(Booted(env, goal).value, n'.acked, n'.sent)
    ensures Sound(env, n')
  {
    hide Valid, ReceiptBook, Booted, FilesBoot, HeldReceipts, HeldEvents;
    forall r | MayLoad(env, n'.disk, r)
      ensures Kept(env, n', r)
    {
      if goal.Some? && r == Some(Fresh(Booted(env, goal).value)) {
        BootedIsStable(env, goal);
      } else if !(goal.Some? && r == goal) {
        NoOtherLoad(env, n.disk, p, b, n'.disk, goal, r);
        assert Kept(env, n, r);
      }
    }
  }

  lemma NoOtherLoad(env: Env, disk: Disk, p: File, b: File, after: Disk, goal: Option<Decoded>, r: Option<Decoded>)
    requires p in disk.primaries && b in disk.backups && Resumes(env, Disk({p}, {b}), after, goal)
    requires MayLoad(env, after, r) && !(goal.Some? && r == goal)
    requires !(goal.Some? && Booted(env, goal).Some? && r == Some(Fresh(Booted(env, goal).value)))
    ensures MayLoad(env, disk, r)
  {
    hide Loads;
    assert goal.None? ==> Booted(env, goal).None?;
  }

  // ---------- starts on the backup ----------

  lemma {:induction false} SurvivingHeld<T>(s: seq<T>, held: set<T>)
    ensures forall x :: x in Surviving(s, held) <==> x in s && x in held
  {
    if s == [] {
    } else {
      SurvivingHeld(s[1..], held);
    }
  }

  lemma {:induction false} NoneSurvives<T>(s: seq<T>, held: set<T>)
    requires forall i :: 0 <= i < |s| ==> s[i] !in held
    ensures Surviving(s, held) == []
  {
    if s == [] {
    } else {
      NoneSurvives(s[1..], held);
    }
  }

  lemma {:induction false} SurvivingSplit<T>(a: seq<T>, b: seq<T>, held: set<T>)
    requires forall i :: 0 <= i < |a| ==> a[i] in held
    requires forall i :: 0 <= i < |b| ==> b[i] !in held
    ensures Surviving(a + b, held) == a
    decreases |a|
  {
    if a == [] {
      assert a + b == b;
      NoneSurvives(b, held);
    } else {
      assert (a + b)[1..] == a[1..] + b;
      SurvivingSplit(a[1..], b, held);
    }
  }

  /** What a cut server still promises: exactly its promises that `w` holds. */
  lemma CutKeeps(n: Node, w: World)
    ensures Promised(w, Cut(n, w).acked, Cut(n, w).sent)
    ensures forall r :: r in Cut(n, w).acked <==> r in n.acked && r in HeldReceipts(w)
    ensures forall e :: e in Cut(n, w).sent <==> e in n.sent && e in HeldEvents(w)
  {
    hide HeldReceipts, HeldEvents;
    SurvivingHeld(n.acked, HeldReceipts(w));
    SurvivingHeld(n.sent, HeldEvents(w));
  }

  lemma FallbackIsSound(env: Env, n: Node, n': Node)
    requires Sound(env, n) && FallsBack(env, n, n')
    ensures Sound(env, n')
  {
    hide GoalReads, Valid, ReceiptBook, Decode, Booted, Leaves, Promised, Settled, Cut;
    var p, b :| p in n.disk.primaries && b in n.disk.backups && GoalReads(env, DecodeFile(env, b))
      && Booted(env, DecodeFile(env, b)) == Some(n'.world)
      && Settled(env, n'.disk, n'.world) && Leaves(env, p, b, n'.disk, DecodeFile(env, b))
      && n' == Cut(n, n'.world).(world := n'.world, disk := n'.disk, clean := true);
    var goal := DecodeFile(env, b);
    NothingBoots(env);
    StartKeepsFiles(env, n.disk, p, b, n'.disk, goal);
    CutKeeps(n, n'.world);
    SettledSound(env, n', goal);
  }

  lemma NothingBoots(env: Env)
    ensures Booted(env, None).None?
  {
  }

  lemma FailedFallbackIsSound(env: Env, n: Node, n': Node)
    requires Sound(env, n) && FallbackFails(env, n, n')
    ensures Sound(env, n')
  {
    hide GoalReads, Valid, ReceiptBook, Decode, Booted, Leaves, Promised, Resumes, Cut;
    var p, b :| p in n.disk.primaries && b in n.disk.backups && GoalReads(env, DecodeFile(env, b))
      && Resumes(env, Disk({p}, {b}), n'.disk, DecodeFile(env, b)) && Leaves(env, p, b, n'.disk, DecodeFile(env, b))
      && var reached := Booted(env, DecodeFile(env, b));
         n' == (if reached.Some? then Cut(n, reached.value) else n).(disk := n'.disk, clean := false);
    var goal := DecodeFile(env, b);
    NothingBoots(env);
    StartKeepsFiles(env, n.disk, p, b, n'.disk, goal);
    if goal.Some? {
      CutKeeps(n, Booted(env, goal).value);
      CutWorld(n, Booted(env, goal).value);
    }
    ResumedSound(env, n, p, b, n', goal);
  }

  lemma CutWorld(n: Node, w: World)
    ensures Cut(n, w).world == n.world
  {
  }

  /** Every write from a valid world answers a receipt, and logs events, that the world before did not hold. */
  lemma WriteIsNew(env: Env, w: World, write: Write)
    requires Valid(w, env.blake3) && ReceiptBook(w)
    requires Mutate(env, w, write).receipt.Some? && Valid(Mutate(env, w, write).world, env.blake3)
    ensures var done := Mutate(env, w, write);
      && (forall r :: r in Answered(write, done.receipt.value) ==> r !in HeldReceipts(w))
      && (forall e :: e in Published(w, write, done.world) ==> e !in HeldEvents(w))
  {
    hide Valid, Execute, ExecuteTransaction, ReceiptBook;
    var done := Mutate(env, w, write);
    if write.TransactionWrite? {
      CommittedReceipt(env, w, write.tx);
    }
    MutateGrows(env, w, write);
    RisingIds(done.world, env.blake3);
    forall e | e in Published(w, write, done.world)
      ensures e !in HeldEvents(w)
    {
      var i :| 0 <= i < |NewEvents(w, done.world)| && NewEvents(w, done.world)[i] == e;
      assert done.world.events[|w.events| + i] == e;
      assert forall j :: 0 <= j < |w.events| ==> w.events[j] == done.world.events[j];
    }
  }

  lemma RisingIds(w: World, blake3: string -> string)
    requires Valid(w, blake3)
    ensures forall i, j :: 0 <= i < j < |w.events| ==> w.events[i].id < w.events[j].id
  {
    hide EventShapeOk, AccountsOk, ContractsOk, EntitiesOk, ProgressOk, ReceiptsOk, LocationsOk, QuestsOk,
      InventoriesOk;
  }

  /**
   What a start on the backup costs. After a stored write that took the previous primary as
   its backup (`SnapshotStore.Save`: whenever that primary could be read and decoded), it
   reaches exactly the world before that write; of the receipts answered and the events
   broadcast it keeps exactly those of before.
   */
  lemma FallbackLosesLastWrite(env: Env, n: Node, write: Write, n': Node, p: File, n'': Node)
    requires Sound(env, n) && n.clean && n.disk.backups != {} && Mutate(env, n.world, write).receipt.Some?
    requires Writes(env, n, write, Stored, n')
    requires n'.disk.backups == {p} && p in n.disk.primaries && DecodeFile(env, p).Some?
    requires FallsBack(env, n', n'')
    ensures n''.world == n.world && n''.acked == n.acked && n''.sent == n.sent
    ensures forall i :: 0 <= i < |n'.acked| ==> (n'.acked[i] in HeldReceipts(n''.world) <==> i < |n.acked|)
    ensures forall i :: 0 <= i < |n'.sent| ==> (n'.sent[i] in HeldEvents(n''.world) <==> i < |n.sent|)
  {
    hide Valid, ReceiptBook, Mutate, Decode, Booted, MayLoad, Leaves, Settled, HeldReceipts, HeldEvents, Answered,
      Published;
    var done := Mutate(env, n.world, write);
    PreviousPrimary(env, n, p);
    assert n''.world == n.world;
    StoredIsValid(env, n.disk, done.world, n'.disk);
    WriteIsNew(env, n.world, write);
    SurvivingSplit(n.acked, Answered(write, done.receipt.value), HeldReceipts(n.world));
    SurvivingSplit(n.sent, Published(n.world, write, done.world), HeldEvents(n.world));
  }

  lemma StoredIsValid(env: Env, before: Disk, w: World, after: Disk)
    requires Saves(env, before, w, Stored, after)
    ensures Valid(w, env.blake3)
  {
    hide Valid, OldInventory, MayLoad, Reuses;
  }

  /** A clean server's primary, if it decodes, holds its world. */
  lemma PreviousPrimary(env: Env, n: Node, p: File)
    requires Sound(env, n) && n.clean && p in n.disk.primaries && n.disk.backups != {} && DecodeFile(env, p).Some?
    ensures Booted(env, DecodeFile(env, p)) == Some(n.world)
  {
    hide Valid, ReceiptBook, Decode, Booted, Promised, FilesBoot;
    var b :| b in n.disk.backups;
    assert Loads(env, p, b) == DecodeFile(env, p);
    assert MayLoad(env, n.disk, DecodeFile(env, p));
  }

  // ---------- the starts as they run ----------

  /** The node that a start from the files a crash left makes of `n`. */
  ghost function AfterStart(env: Env, n: Node, b: File, started: Started, readable: bool, disk: Disk): Node {
    var reached := Booted(env, DecodeFile(env, b));
    match started
    case Running(w) => (if readable then n else Cut(n, w)).(world := w, disk := disk, clean := true)
    case _ => (if readable || reached.None? then n else Cut(n, reached.value)).(disk := disk, clean := false)
  }

  /**
   Starting the server after a crash, on any files the crash could leave, is a step of the
   node, and one that reads if the primary could be read, as long as a world that has to be
   written can be read back.
   */
  method StartServer(store: SnapshotStore, ghost n: Node) returns (started: Started, readable: bool)
    requires store.dir.Valid() && store.dir.View() == Disk({store.dir.primary}, {store.dir.backup})
    requires store.dir.primary in n.disk.primaries && store.dir.backup in n.disk.backups
    modifies store.dir
    ensures store.dir.Valid()
    ensures
      var after := AfterStart(store.env, n, old(store.dir.backup), started, readable, store.dir.View());
      GoalReads(store.env, Goal(store.env, old(store.dir.primary), old(store.dir.backup), readable)) ==>
        Steps(store.env, n, after) && (readable ==> Reads(store.env, n, after))
  {
    ghost var p, b := store.dir.primary, store.dir.backup;
    started, readable := LoadWorld(store);
    ghost var after := AfterStart(store.env, n, b, started, readable, store.dir.View());
    hide Booted, Resumes, Leaves, Settled, GoalReads, Decode;
    if GoalReads(store.env, Goal(store.env, p, b, readable)) {
      if started.Running? && readable {
        assert Restarts(store.env, n, after);
      } else if readable {
        assert StartFails(store.env, n, after);
      } else if started.Running? {
        assert FallsBack(store.env, n, after);
      } else {
        assert FallbackFails(store.env, n, after);
      }
    }
  }

  // ---------- worlds that cannot be read back ----------

  /** Every write that succeeds raises the head. */
  lemma HeadRises(env: Env, w: World, write: Write)
    requires Mutate(env, w, write).receipt.Some?
    ensures Mutate(env, w, write).world.head > w.head
  {
    hide Execute, Root;
    match write
    case CommandWrite(id, action, args) => ExecuteRaisesHead(env, w, id, action, args);
    case TransactionWrite(tx) =>
      TransactionWraps(env, w, tx);
      ExecuteRaisesHead(env, w, tx.entityId, tx.action, tx.args);
    case _ =>
  }

  lemma ExecuteRaisesHead(env: Env, w: World, id: nat, action: string, args: Json)
    requires Execute(env, w, id, action, args, true).receipt.Some?
    ensures Execute(env, w, id, action, args, true).world.head > w.head
  {
    hide Conclude, PerformAll, Root, LogExact;
    var calls := env.script(w, id, ContractSource(w, id).value, action, args).calls;
    ScriptKeepsHistory(w, id, calls);
    ConcludeGrows(w, PerformAll(w, id, calls), id, action);
  }

  /** The only loads after a stored write: its own file, or behind it the backup. */
  lemma StoredLoads(env: Env, w: World, disk: Disk, p: File, r: Option<Decoded>)
    requires disk == Disk({Some(Encode(env, w))}, {p})
    ensures MayLoad(env, disk, r) <==> r == Loads(env, Some(Encode(env, w)), p)
  {
    hide Loads, Encode;
    assert p in disk.backups && Some(Encode(env, w)) in disk.primaries;
  }

  /** What the file of an unreadable world decodes to, if anything, is another world. */
  lemma UnreadableDecodes(env: Env, w: World)
    requires !Readable(env, w) && DecodeFile(env, Some(Encode(env, w))).Some?
    ensures DecodeFile(env, Some(Encode(env, w))).value.world != w
  {
    hide Valid, OldInventory, Shallow, Reread, Root;
    if !Shallow(w, 1) {
      TooDeepNeverDecodes(env, w);
    }
  }

  /**
   After a stored write that backed up the previous primary, the server keeps its promises
   if and only if the world it wrote can be read back.
   */
  lemma StoredIsSoundIff(env: Env, n: Node, write: Write, n': Node, p: File)
    requires Sound(env, n) && n.clean && n.disk.backups != {} && Mutate(env, n.world, write).receipt.Some?
    requires Writes(env, n, write, Stored, n')
    requires n'.disk.backups == {p} && p in n.disk.primaries && DecodeFile(env, p).Some?
    ensures Sound(env, n') <==> Readable(env, n'.world)
  {
    hide Valid, ReceiptBook, Mutate, Decode, Booted, Readable, MayLoad, OldInventory, FilesBoot, Promised, Encode;
    if Readable(env, n'.world) {
      WriteIsSound(env, n, write, Stored, n');
    } else {
      var r := Loads(env, Some(Encode(env, n'.world)), p);
      StoredLoads(env, n'.world, n'.disk, p, r);
      PreviousPrimary(env, n, p);
      HeadRises(env, n.world, write);
      if DecodeFile(env, Some(Encode(env, n'.world))).Some? {
        UnreadableDecodes(env, n'.world);
      }
      assert !Kept(env, n', r);
    }
  }

  /** A write that is stored and answered, in a file that does not decode. */
  ghost predicate WritesUnread(env: Env, n: Node, n': Node) {
    exists write :: Mutate(env, n.world, write).receipt.Some? && Writes(env, n, write, Stored, n')
      && DecodeFile(env, Some(Encode(env, n'.world))).None?
  }

  /** `later` promises what `first` did, and beyond that only what `first` does not hold. */
  ghost predicate OnlyNewPromises(first: Node, later: Node) {
    && first.acked <= later.acked && first.sent <= later.sent
    && (forall i :: |first.acked| <= i < |later.acked| ==> later.acked[i] !in HeldReceipts(first.world))
    && (forall i :: |first.sent| <= i < |later.sent| ==> later.sent[i] !in HeldEvents(first.world))
  }

  lemma OneWriteUnread(env: Env, first: Node, n: Node, n': Node)
    requires Valid(n.world, env.blake3) && ReceiptBook(n.world) && Extends(first.world, n.world)
    requires OnlyNewPromises(first, n) && WritesUnread(env, n, n')
    ensures Valid(n'.world, env.blake3) && ReceiptBook(n'.world) && Extends(first.world, n'.world)
    ensures OnlyNewPromises(first, n')
  {
    hide Valid, ReceiptBook, Mutate, Decode, MayLoad, OldInventory, Encode, HeldReceipts, HeldEvents, Answered,
      Published;
    var write :| Mutate(env, n.world, write).receipt.Some? && Writes(env, n, write, Stored, n')
      && DecodeFile(env, Some(Encode(env, n'.world))).None?;
    var done := Mutate(env, n.world, write);
    WriteExtends(env, n.world, write);
    WriteIsNew(env, n.world, write);
    HeldMore(first.world, n.world);
    var answered, published := Answered(write, done.receipt.value), Published(n.world, write, done.world);
    assert n'.acked == n.acked + answered && n'.sent == n.sent + published;
  }

  lemma HeldMore(w: World, v: World)
    requires Extends(w, v)
    ensures HeldReceipts(w) <= HeldReceipts(v) && HeldEvents(w) <= HeldEvents(v)
  {
    forall e | e in w.events
      ensures e in v.events
    {
      var i :| 0 <= i < |w.events| && w.events[i] == e;
      assert v.events[i] == e;
    }
  }

  /** The backup such a write leaves stays, since a file that does not decode is not copied. */
  lemma BackupStays(env: Env, n: Node, n': Node, p: File)
    requires WritesUnread(env, n, n') && n.disk == Disk({Some(Encode(env, n.world))}, {p})
    requires DecodeFile(env, Some(Encode(env, n.world))).None?
    ensures n'.disk == Disk({Some(Encode(env, n'.world))}, {p})
  {
    hide Mutate, Decode, MayLoad, Encode, Within;
    assert forall b :: b in n'.disk.backups ==> b == p;
    assert n'.disk.backups == {p};
  }

  lemma {:induction false} UnreadRun(env: Env, nodes: seq<Node>, p: File, k: nat)
    requires 1 <= k < |nodes| && Sound(env, nodes[0])
    requires forall i :: 0 <= i < |nodes| - 1 ==> WritesUnread(env, nodes[i], nodes[i + 1])
    requires nodes[1].disk.backups == {p}
    ensures Valid(nodes[k].world, env.blake3) && ReceiptBook(nodes[k].world)
    ensures Extends(nodes[0].world, nodes[k].world) && OnlyNewPromises(nodes[0], nodes[k])
    ensures nodes[k].disk == Disk({Some(Encode(env, nodes[k].world))}, {p})
    ensures DecodeFile(env, Some(Encode(env, nodes[k].world))).None?
  {
    hide Valid, ReceiptBook, Decode, WritesUnread, Encode, OnlyNewPromises, Sound;
    assert WritesUnread(env, nodes[k - 1], nodes[k - 1 + 1]);
    UnreadFile(env, nodes[k - 1], nodes[k]);
    if k == 1 {
      SoundStart(env, nodes[0]);
    } else {
      UnreadRun(env, nodes, p, k - 1);
      BackupStays(env, nodes[k - 1], nodes[k], p);
    }
    OneWriteUnread(env, nodes[0], nodes[k - 1], nodes[k]);
  }

  lemma SoundStart(env: Env, n: Node)
    requires Sound(env, n)
    ensures Valid(n.world, env.blake3) && ReceiptBook(n.world) && Extends(n.world, n.world) && OnlyNewPromises(n, n)
  {
    hide Valid, ReceiptBook, FilesBoot;
  }

  lemma UnreadFile(env: Env, n: Node, n': Node)
    requires WritesUnread(env, n, n')
    ensures n'.disk.primaries == {Some(Encode(env, n'.world))}
    ensures DecodeFile(env, Some(Encode(env, n'.world))).None?
  {
    hide Mutate, Decode, MayLoad, Encode, Within;
  }

  /**
   What writes that cannot be read back cost, with no fault anywhere. After any number of
   them, all stored and answered, every load finds the world before the first; of the
   receipts answered and the events broadcast exactly those of before are left.
   */
  lemma UnreadWritesAreLost(env: Env, nodes: seq<Node>, p: File, k: nat)
    requires 1 <= k < |nodes| && Sound(env, nodes[0]) && nodes[0].clean && nodes[0].disk.backups != {}
    requires forall i :: 0 <= i < |nodes| - 1 ==> WritesUnread(env, nodes[i], nodes[i + 1])
    requires nodes[1].disk.backups == {p} && p in nodes[0].disk.primaries && DecodeFile(env, p).Some?
    ensures forall r :: MayLoad(env, nodes[k].disk, r) ==> Booted(env, r) == Some(nodes[0].world)
    ensures forall i :: 0 <= i < |nodes[k].acked| ==>
      (nodes[k].acked[i] in HeldReceipts(nodes[0].world) <==> i < |nodes[0].acked|)
    ensures forall i :: 0 <= i < |nodes[k].sent| ==>
      (nodes[k].sent[i] in HeldEvents(nodes[0].world) <==> i < |nodes[0].sent|)
  {
    hide Valid, ReceiptBook, Decode, WritesUnread, Encode, Booted, MayLoad, HeldReceipts, HeldEvents, FilesBoot, Kept;
    UnreadRun(env, nodes, p, k);
    PreviousPrimary(env, nodes[0], p);
    forall r | MayLoad(env, nodes[k].disk, r)
      ensures Booted(env, r) == Some(nodes[0].world)
    {
      StoredLoads(env, nodes[k].world, nodes[k].disk, p, r);
    }
  }

  // ---------- whole runs ----------

  ghost predicate IsRun(env: Env, nodes: seq<Node>) {
    forall i :: 0 <= i < |nodes| - 1 ==> Steps(env, nodes[i], nodes[i + 1])
  }

  lemma StepIsSound(env: Env, n: Node, n': Node)
    requires Sound(env, n) && Steps(env, n, n')
    ensures Sound(env, n')
  {
    hide Sound, Writes, WriteReads, Restarts, StartFails, FallsBack, FallbackFails;
    if Restarts(env, n, n') {
      RestartIsSound(env, n, n');
    } else if StartFails(env, n, n') {
      FailedStartIsSound(env, n, n');
    } else if FallsBack(env, n, n') {
      FallbackIsSound(env, n, n');
    } else if FallbackFails(env, n, n') {
      FailedFallbackIsSound(env, n, n');
    } else {
      var write, saved :| Writes(env, n, write, saved, n') && WriteReads(env, n.world, write);
      WriteIsSound(env, n, write, saved, n');
    }
  }

  lemma {:induction false} RunIsSound(env: Env, nodes: seq<Node>, n: nat)
    requires IsRun(env, nodes) && n < |nodes| && Sound(env, nodes[0])
    ensures Sound(env, nodes[n])
  {
    hide Sound, Steps;
    if n == 0 {
    } else {
      RunIsSound(env, nodes, n - 1);
      StepIsSound(env, nodes[n - 1], nodes[n]);
    }
  }

  /** From step `i` to step `j` no start found a primary it could not read. */
  ghost predicate AllRead(env: Env, nodes: seq<Node>, i: nat, j: nat)
    requires i <= j < |nodes|
  {
    forall k :: i <= k < j ==> Reads(env, nodes[k], nodes[k + 1])
  }

  lemma PromisesGrow(env: Env, nodes: seq<Node>, i: nat, j: nat)
    requires i <= j < |nodes| && AllRead(env, nodes, i, j)
    ensures nodes[i].acked <= nodes[j].acked && nodes[i].sent <= nodes[j].sent
    decreases j
  {
    hide Mutate, Saves, Loads, Booted, Settled, Resumes, Leaves;
    if i < j {
      PromisesGrow(env, nodes, i, j - 1);
      assert Reads(env, nodes[j - 1], nodes[j]);
    }
  }

  /** Migration on the way to a running server touches neither receipts nor events. */
  lemma BootedHolds(env: Env, r: Option<Decoded>)
    requires Booted(env, r).Some?
    ensures Booted(env, r).value.receipts == r.value.world.receipts
    ensures Booted(env, r).value.events == r.value.world.events
  {
    hide Valid;
    OnlyIndexMoves(r.value.world);
  }

  /**
   Acknowledged implies durable: whatever a client was promised by step `i`, every world
   that a crash at step `j` can leave holds it, as long as no start in between found an
   unreadable primary, and a start on any of them succeeds. And as long as no rollback has
   failed, the world in memory is exactly what a load would return.
   */
  lemma AcknowledgedIsDurable(env: Env, nodes: seq<Node>, i: nat, j: nat, r: Option<Decoded>)
    requires IsRun(env, nodes) && i <= j < |nodes| && Sound(env, nodes[0]) && MayLoad(env, nodes[j].disk, r)
    requires AllRead(env, nodes, i, j)
    ensures r.Some? && Booted(env, r).Some?
    ensures forall k :: 0 <= k < |nodes[i].acked| ==>
      var receipt := nodes[i].acked[k];
      receipt.txId in r.value.world.receipts && r.value.world.receipts[receipt.txId] == receipt
    ensures forall k :: 0 <= k < |nodes[i].sent| ==> nodes[i].sent[k] in r.value.world.events
    ensures nodes[j].clean ==> r.value.world == nodes[j].world
  {
    hide IsRun, AllRead, Valid, ReceiptBook, MayLoad, Booted, FilesBoot;
    RunIsSound(env, nodes, j);
    PromisesGrow(env, nodes, i, j);
    NothingBoots(env);
    var n := nodes[j];
    assert Kept(env, n, r);
    BootedHolds(env, r);
    forall k | 0 <= k < |nodes[i].acked|
      ensures nodes[i].acked[k] in n.acked
    {
      assert nodes[i].acked[k] == n.acked[k];
    }
    forall k | 0 <= k < |nodes[i].sent|
      ensures nodes[i].sent[k] in n.sent
    {
      assert nodes[i].sent[k] == n.sent[k];
    }
  }

  /** A server started on an empty directory is sound. */
  lemma FirstStartIsSound(env: Env)
    ensures Sound(env, Node(Genesis(), Disk({None}, {None}), [], [], true))
  {
    hide Valid, QuestsOk, Migrate;
    GenesisValid(env.blake3);
    assert LegacyActors(Genesis()) == {};
    NothingToMigrate(Genesis());
    assert ReceiptBook(Genesis());
  }
}
