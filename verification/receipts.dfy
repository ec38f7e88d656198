/**
 Whole runs of RPC writes from the genesis world: event numbering, nonces, and the
 one-to-one match of receipts and `transaction_executed` events.
 */
module Receipts {
  import opened Common
  import opened Json
  import opened QuestGraph
  import opened Model
  import opened HostOps
  import opened Execution
  import opened History
  import opened Validation

  /** A run: each write with whether its save succeeded. */
  type Script = seq<(Write, bool)>

  ghost function Run(env: Env, w: World, writes: Script): World {
    if writes == [] then w
    else
      var last := writes[|writes| - 1];
      Commit(env, Run(env, w, writes[..|writes| - 1]), last.0, last.1)
  }

  ghost predicate HasNonce(w: World, account: string, nonce: nat, id: string) {
    id in w.receipts && w.receipts[id].from == account && w.receipts[id].nonce == nonce
  }

  ghost predicate NamedBy(events: seq<Event>, id: string) {
    exists i :: 0 <= i < |events| && Names(events[i], id)
  }

  /**
   The receipts of an account carry each nonce below its current one exactly once, and
   every receipt is named by an event.
   */
  ghost predicate ReceiptBook(w: World) {
    && (forall id :: id in w.receipts ==>
      w.receipts[id].from in w.accounts && w.receipts[id].nonce < w.accounts[w.receipts[id].from].nonce)
    && (forall a, n: nat {:trigger Spent(w, a, n)} :: a in w.accounts && n < w.accounts[a].nonce ==> Spent(w, a, n))
    && (forall id, id', a, n {:trigger HasNonce(w, a, n, id), HasNonce(w, a, n, id')} ::
      HasNonce(w, a, n, id) && HasNonce(w, a, n, id') ==> id == id')
    && (forall id :: id in w.receipts ==> NamedBy(w.events, id))
  }

  ghost predicate Spent(w: World, account: string, nonce: nat) {
    exists id :: HasNonce(w, account, nonce, id)
  }

  lemma NamesPersist(w: World, after: World, id: string)
    requires w.events <= after.events && NamedBy(w.events, id)
    ensures NamedBy(after.events, id)
  {
    var i :| 0 <= i < |w.events| && Names(w.events[i], id);
    assert Names(after.events[i], id);
  }

  /** Writes that leave receipts and nonces alone keep the book. */
  lemma BookKept(w: World, after: World)
    requires ReceiptBook(w) && after.receipts == w.receipts && w.events <= after.events
    requires w.accounts.Keys <= after.accounts.Keys
    requires forall a :: a in after.accounts ==>
      after.accounts[a].nonce == if a in w.accounts then w.accounts[a].nonce else 0
    ensures ReceiptBook(after)
  {
    forall a, n: nat | a in after.accounts && n < after.accounts[a].nonce
      ensures Spent(after, a, n)
    {
      assert Spent(w, a, n);
      var id :| HasNonce(w, a, n, id);
      assert HasNonce(after, a, n, id);
    }
    forall id | id in after.receipts
      ensures NamedBy(after.events, id)
    {
      NamesPersist(w, after, id);
    }
    forall id, id', a, n | HasNonce(after, a, n, id) && HasNonce(after, a, n, id')
      ensures id == id'
    {
      assert HasNonce(w, a, n, id) && HasNonce(w, a, n, id');
    }
  }

  /** The new receipt takes the spent nonce, under an id no earlier receipt has. */
  lemma BookExtended(w: World, after: World, r: Receipt)
    requires ReceiptBook(w) && r.txId !in w.receipts && r.from in w.accounts && r.nonce == w.accounts[r.from].nonce
    requires after.receipts == w.receipts[r.txId := r] && w.events <= after.events
    requires after.accounts.Keys == w.accounts.Keys
    requires forall a :: a in w.accounts ==>
      after.accounts[a].nonce == w.accounts[a].nonce + if a == r.from then 1 else 0
    requires NamedBy(after.events, r.txId)
    ensures ReceiptBook(after)
  {
    forall a, n: nat | a in after.accounts && n < after.accounts[a].nonce
      ensures Spent(after, a, n)
    {
      if n < w.accounts[a].nonce {
        assert Spent(w, a, n);
        var id :| HasNonce(w, a, n, id);
        assert HasNonce(after, a, n, id);
      } else {
        assert HasNonce(after, a, n, r.txId);
      }
    }
    forall id | id in after.receipts
      ensures NamedBy(after.events, id)
    {
      if id != r.txId {
        NamesPersist(w, after, id);
      }
    }
    forall id, id', a, n | HasNonce(after, a, n, id) && HasNonce(after, a, n, id')
      ensures id == id'
    {
      assert id != r.txId ==> HasNonce(w, a, n, id);
      assert id' != r.txId ==> HasNonce(w, a, n, id');
    }
  }

  /** An id that already has a receipt cannot commit again: the save check sees the repeated event. */
  lemma RepeatedIdFailsValidation(w: World, after: World, id: string)
    requires w.events < after.events && NamedBy(w.events, id) && Names(after.events[|after.events| - 1], id)
    ensures !EventsOk(after.events, after.receipts, after.head, after.nextEventId)
  {
    var i :| 0 <= i < |w.events| && Names(w.events[i], id);
    assert SameTx(after.events[i], after.events[|after.events| - 1]);
  }

  /** What a successful transaction wrote. */
  lemma TransactionShape(env: Env, w: World, tx: Transaction)
    requires Mutate(env, w, TransactionWrite(tx)).receipt.Some?
    ensures var after := Mutate(env, w, TransactionWrite(tx)).world;
      var r := Mutate(env, w, TransactionWrite(tx)).receipt.value;
      && tx.from in w.accounts && w.accounts[tx.from].nonce == tx.nonce
      && r.txId == env.txId(tx) && r.from == tx.from && r.nonce == tx.nonce && r.stateRoot == Root(env, after)
      && after.receipts == w.receipts[r.txId := r]
      && after.accounts.Keys == w.accounts.Keys
      && (forall a :: a in w.accounts ==>
        after.accounts[a].nonce == w.accounts[a].nonce + if a == tx.from then 1 else 0)
      && w.events < after.events && Names(after.events[|after.events| - 1], r.txId)
  {
    hide Execute, ExecuteTransaction, Mutate, LogExact;
    ExecuteKeepsHistory(env, w, tx.entityId, tx.action, tx.args, true);
    TransactionWraps(env, w, tx);
    TransactionReceipt(env, w, tx);
    var run := Execute(env, w, tx.entityId, tx.action, tx.args, true).world;
    TxDataFields(env.txId(tx), tx.from, tx.nonce);
    assert Mutate(env, w, TransactionWrite(tx)).world.events == run.events + [TxEvent(env, run, tx)];
  }

  lemma TransactionReceipt(env: Env, w: World, tx: Transaction)
    requires Mutate(env, w, TransactionWrite(tx)).receipt.Some?
    ensures var r := Mutate(env, w, TransactionWrite(tx)).receipt.value;
      && Admissible(env, w, tx)
      && r.txId == env.txId(tx) && r.from == tx.from && r.nonce == tx.nonce
      && r.stateRoot == Root(env, Mutate(env, w, TransactionWrite(tx)).world)
  {
    hide Execute, Admissible;
  }

  lemma TxDataFields(id: string, from: string, nonce: nat)
    ensures GetStr(TxData(id, from, nonce), "tx_id") == Some(id)
    ensures GetStr(TxData(id, from, nonce), "from") == Some(from)
    ensures nonce <= MAX_U64 ==> GetU64(TxData(id, from, nonce), "nonce") == Some(nonce)
  {
    assert "tx_id"[0] != "from"[0] && "tx_id"[0] != "nonce"[0] && "from"[0] != "nonce"[0];
  }

  lemma TransactionKeepsBook(env: Env, w: World, tx: Transaction)
    requires ReceiptBook(w)
    requires Mutate(env, w, TransactionWrite(tx)).receipt.Some?
    requires var after := Mutate(env, w, TransactionWrite(tx)).world;
      EventsOk(after.events, after.receipts, after.head, after.nextEventId)
    ensures env.txId(tx) !in w.receipts
    ensures ReceiptBook(Mutate(env, w, TransactionWrite(tx)).world)
  {
    var done := Mutate(env, w, TransactionWrite(tx));
    TransactionShape(env, w, tx);
    var r := done.receipt.value;
    assert NamedBy(done.world.events, r.txId);
    if r.txId in w.receipts {
      RepeatedIdFailsValidation(w, done.world, r.txId);
    }
    BookExtended(w, done.world, r);
  }

  lemma ValidEvents(w: World, blake3: string -> string)
    ensures Valid(w, blake3) ==> EventsOk(w.events, w.receipts, w.head, w.nextEventId)
  {
  }

  lemma CommitKeepsBook(env: Env, w: World, write: Write, saved: bool)
    requires ReceiptBook(w)
    ensures ReceiptBook(Commit(env, w, write, saved))
  {
    hide Valid, Execute, ExecuteTransaction, ReceiptBook, EventsOk;
    var after := Commit(env, w, write, saved);
    CommitKeepsLog(env, w, write, saved);
    if after != w {
      ValidEvents(Mutate(env, w, write).world, env.blake3);
      match write
      case CommandWrite(id, action, args) =>
        ExecuteKeepsHistory(env, w, id, action, args, true);
        BookKept(w, after);
      case TransactionWrite(tx) => TransactionKeepsBook(env, w, tx);
      case _ => BookKept(w, after);
    }
  }

  lemma GenesisValid(blake3: string -> string)
    ensures Valid(Genesis(), blake3)
  {
    OrderedIsAcyclic(Prerequisites(map[]), []);
  }

  /**
   Every run from genesis: the world is valid, event ids are exactly 1..n with heads that
   never decrease, and the receipt book is exact.
   */
  lemma {:induction false} EveryRunIsExact(env: Env, writes: Script)
    ensures var w := Run(env, Genesis(), writes); Valid(w, env.blake3) && LogExact(w) && ReceiptBook(w)
  {
    if writes == [] {
      GenesisValid(env.blake3);
    } else {
      var init, last := writes[..|writes| - 1], writes[|writes| - 1];
      EveryRunIsExact(env, init);
      CommitKeepsLog(env, Run(env, Genesis(), init), last.0, last.1);
      CommitKeepsBook(env, Run(env, Genesis(), init), last.0, last.1);
    }
  }

  /** Receipts and `transaction_executed` events name each other one to one. */
  lemma ReceiptsMatchEvents(env: Env, writes: Script)
    ensures var w := Run(env, Genesis(), writes);
      && (forall id :: id in w.receipts <==> NamedBy(w.events, id))
      && (forall i, j, id :: 0 <= i < j < |w.events| ==> !(Names(w.events[i], id) && Names(w.events[j], id)))
  {
    EveryRunIsExact(env, writes);
    var w := Run(env, Genesis(), writes);
    forall i, j, id | 0 <= i < j < |w.events|
      ensures !(Names(w.events[i], id) && Names(w.events[j], id))
    {
      assert !SameTx(w.events[i], w.events[j]);
    }
  }

  /** A committed transaction's receipt is stored, and its state root is the committed world's root. */
  lemma CommittedReceipt(env: Env, w: World, tx: Transaction)
    requires ReceiptBook(w)
    requires var done := Mutate(env, w, TransactionWrite(tx)); done.receipt.Some? && Valid(done.world, env.blake3)
    ensures var after := Commit(env, w, TransactionWrite(tx), true);
      var r := Mutate(env, w, TransactionWrite(tx)).receipt.value;
      && r.txId in after.receipts && after.receipts[r.txId] == r
      && r.stateRoot == Root(env, after)
      && r.txId !in w.receipts
      && after.receipts == w.receipts[r.txId := r]
  {
    TransactionShape(env, w, tx);
    TransactionKeepsBook(env, w, tx);
  }

  /** Write number `k` of the run is the committed transaction with this id and receipt. */
  ghost predicate Wrote(env: Env, writes: Script, k: nat, id: string, r: Receipt)
    requires k < |writes|
  {
    var write := writes[k].0;
    && write.TransactionWrite? && env.txId(write.tx) == id
    && Commits(env, Run(env, Genesis(), writes[..k]), write, writes[k].1)
    && r == Mutate(env, Run(env, Genesis(), writes[..k]), write).receipt.value
    && r.from == write.tx.from && r.nonce == write.tx.nonce
    && r.stateRoot == Root(env, Run(env, Genesis(), writes[..k + 1]))
  }

  /**
   Every receipt a run from genesis leaves was written by one of its transactions, unchanged
   since, and its state root is the root of the world that very write committed.
   */
  lemma {:induction false} EveryReceiptHasItsRoot(env: Env, writes: Script, id: string)
    requires id in Run(env, Genesis(), writes).receipts
    ensures exists k :: 0 <= k < |writes| && Wrote(env, writes, k, id, Run(env, Genesis(), writes).receipts[id])
  {
    hide Mutate, Valid;
    var n := |writes| - 1;
    var init, last := writes[..n], writes[n];
    var before, after := Run(env, Genesis(), init), Run(env, Genesis(), writes);
    if id in before.receipts && after.receipts[id] == before.receipts[id] {
      EveryReceiptHasItsRoot(env, init, id);
      var k :| 0 <= k < n && Wrote(env, init, k, id, before.receipts[id]);
      assert init[..k] == writes[..k] && init[..k + 1] == writes[..k + 1];
      assert Wrote(env, writes, k, id, after.receipts[id]);
    } else {
      EveryRunIsExact(env, init);
      NewReceipt(env, before, last.0, last.1, id);
      assert writes[..n + 1] == writes;
      assert Wrote(env, writes, n, id, after.receipts[id]);
    }
  }

  /** Only a committed transaction writes a receipt, its own. */
  lemma NewReceipt(env: Env, w: World, write: Write, saved: bool, id: string)
    requires ReceiptBook(w)
    requires var after := Commit(env, w, write, saved);
      id in after.receipts && !(id in w.receipts && after.receipts[id] == w.receipts[id])
    ensures write.TransactionWrite? && Commits(env, w, write, saved) && env.txId(write.tx) == id
    ensures var r := Commit(env, w, write, saved).receipts[id];
      && r == Mutate(env, w, write).receipt.value && r.from == write.tx.from && r.nonce == write.tx.nonce
      && r.stateRoot == Root(env, Commit(env, w, write, saved))
  {
    hide Execute, ExecuteTransaction, Valid, ReceiptBook;
    match write
    case CommandWrite(entity, action, args) => ExecuteKeepsHistory(env, w, entity, action, args, true);
    case TransactionWrite(tx) =>
      TransactionShape(env, w, tx);
    case _ =>
  }
}
