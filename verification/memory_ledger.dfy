/**
 The ledger object (src/ledger_runtime.rs) and the digests and checks it computes
 (src/ledger.rs), as the methods run. Each method is proved to compute its function in
 Ledger and LedgerChain, and the object keeps the chain invariant.
 */
module LedgerObject {
  import opened Common
  import opened Text
  import opened Json
  import opened JsonText
  import opened JsonPrinter
  import opened Model
  import opened Validation
  import opened HostOps
  import opened Execution
  import opened History
  import opened Runtime
  import opened Executor
  import opened Ledger
  import opened LedgerChain
  import opened LedgerRuns

  // ---------- digests ----------

  method HashOf(c: Crypto, domain: Domain, v: Json) returns (hash: Option<string>)
    ensures hash == Digest(c, domain, v)
  {
    var text := CanonicalJson(v);
    match text
    case None => return None;
    case Some(t) => return Some(c.hash(domain, t));
  }

  method SigningHash(c: Crypto, tx: LedgerTransaction) returns (hash: Option<string>)
    ensures hash == SigningDigest(c, tx)
  {
    if tx.version != 1 || tx.chainId == "" || tx.from == "" || tx.action == "" || !IsLowerHex(tx.genesisHash, 32) {
      return None;
    }
    hash := HashOf(c, Sign, SigningJson(tx));
  }

  method VerifyTransaction(c: Crypto, tx: LedgerTransaction, key: string, chainId: string, genesisHash: string)
    returns (ok: bool)
    ensures ok <==> Verifies(c, tx, key, chainId, genesisHash)
  {
    if tx.chainId != chainId || tx.genesisHash != genesisHash {
      return false;
    }
    if !IsLowerHex(key, 32) || !IsLowerHex(tx.signature, 64) || !c.isKey(key) {
      return false;
    }
    var digest := SigningHash(c, tx);
    return digest.Some? && c.signed(key, digest.value, tx.signature);
  }

  method IdOf(c: Crypto, tx: LedgerTransaction) returns (id: Option<string>)
    ensures id == TxId(c, tx)
  {
    var digest := SigningHash(c, tx);
    if digest.None? || !IsLowerHex(tx.signature, 64) {
      return None;
    }
    id := HashOf(c, Tx, TxJson(tx));
  }

  method HashManifest(c: Crypto, g: GenesisManifest) returns (hash: Option<string>)
    ensures hash == ManifestHash(c, g)
  {
    if g.version != 1 || g.encodingVersion != 1 || g.rulesVersion != 1 || g.chainId == "" {
      return None;
    }
    hash := HashOf(c, Manifest, ManifestJson(g));
  }

  method HashHeader(c: Crypto, h: BlockHeader) returns (hash: Option<string>)
    ensures hash == HeaderHash(c, h)
  {
    if h.version != 1 || h.rulesVersion != 1 || h.chainId == "" {
      return None;
    }
    if (h.height == 0 && h.txCount != 0) || (h.height > 0 && h.txCount != 1) {
      return None;
    }
    var hashes := [h.genesisHash, h.parentHash, h.transactionsDigest, h.resultsDigest, h.postStateDigest];
    for n := 0 to |hashes|
      invariant forall i :: 0 <= i < n ==> IsLowerHex(hashes[i], 32)
    {
      if !IsLowerHex(hashes[n], 32) {
        assert hashes[0] == h.genesisHash;
        return None;
      }
    }
    assert hashes[0] == h.genesisHash && hashes[1] == h.parentHash && hashes[2] == h.transactionsDigest
      && hashes[3] == h.resultsDigest && hashes[4] == h.postStateDigest;
    if h.height == 0 && h.parentHash != ZERO_HASH {
      return None;
    }
    hash := HashOf(c, Header, HeaderJson(h));
  }

  method HashState(m: Machine, w: World) returns (hash: Option<string>)
    ensures hash == StateDigest(m, w)
  {
    var projection := w.(receipts := map[]);
    hash := HashOf(m.crypto, State, m.worldJson(projection));
  }

  /** `validate_commitments`: check each transaction with its result, collecting the ids. */
  method ValidateCommitments(c: Crypto, b: LedgerBlock) returns (hash: Option<string>)
    ensures hash == Commitments(c, b)
  {
    hide HeaderHash, TxId, Digest, ResultsJson;
    var own := HashHeader(c, b.header);
    if own.None? || |b.transactions| != b.header.txCount || |b.results| != |b.transactions| {
      return None;
    }
    var ids: seq<string> := [];
    for n := 0 to |b.transactions|
      invariant forall i :: 0 <= i < n ==> PairOk(c, b.header, b.transactions[i], b.results[i])
      invariant ids == Ids(b.results)[..n]
    {
      var tx, r := b.transactions[n], b.results[n];
      if tx.chainId != b.header.chainId || tx.genesisHash != b.header.genesisHash {
        return None;
      }
      var id := IdOf(c, tx);
      if id.None? || !r.ok || r.txId != id.value || r.from != tx.from || r.nonce != tx.nonce {
        return None;
      }
      if !IsLowerHex(r.eventsDigest, 32) {
        return None;
      }
      match (r.firstEventId, r.lastEventId) {
        case (None, None) =>
        case (Some(first), Some(last)) =>
          if !(0 < first <= last) {
            return None;
          }
        case _ => return None;
      }
      ids := ids + [id.value];
    }
    assert Ids(b.results)[..|b.transactions|] == Ids(b.results);
    var transactions := HashOf(c, Transactions, Strings(ids));
    var results := HashOf(c, Results, ResultsJson(b.results));
    if transactions != Some(b.header.transactionsDigest) || results != Some(b.header.resultsDigest) {
      return None;
    }
    return own;
  }

  // ---------- the ledger ----------

  /** `execute_candidate` on a clone of the ledger's world, up to the candidate's validation. */
  method RunCandidate(m: Machine, l: Chain, tx: LedgerTransaction, id: string) returns (done: Option<(World, Receipt)>)
    requires Admits(m, l, tx) && TxId(m.crypto, tx) == Some(id)
    ensures done == PostState(m, l, tx)
  {
    hide Execute, Verifies, TxId, Model.Valid;
    var candidate := new WorldState(l.world);
    var receipt := ExecuteInternal(Lua(m, l.limits), candidate, tx.entityId, tx.action, tx.args, true);
    if receipt.None? {
      return None;
    }
    if tx.from !in candidate.accounts || tx.nonce + 1 > MAX_U64 || candidate.nextEventId + 1 > MAX_U64 {
      return None;
    }
    candidate.accounts := candidate.accounts[tx.from := candidate.accounts[tx.from].(nonce := tx.nonce + 1)];
    candidate.PushEvent(LEDGER_EXECUTED, Some(tx.entityId), TxData(id, tx.from, tx.nonce));
    var valid := Validate(candidate.View(), m.blake3);
    if !valid {
      return None;
    }
    return Some((candidate.View(), receipt.value));
  }

  /** The result entry of a candidate block. */
  method BuildResult(m: Machine, tx: LedgerTransaction, id: string, receipt: Receipt, events: seq<Event>)
    returns (result: Option<ExecutionResult>)
    requires TxId(m.crypto, tx) == Some(id)
    ensures result == ResultOf(m, tx, receipt, events)
  {
    hide TxId, Digest, EventsJson;
    var digest := HashOf(m.crypto, Events, EventsJson(events));
    if digest.None? {
      return None;
    }
    return Some(ExecutionResult(id, tx.from, tx.nonce, true, receipt.messages, receipt.result, FirstId(events),
                                FinalId(events), digest.value));
  }

  method BuildHeader(m: Machine, l: Chain, after: World, result: ExecutionResult) returns (header: Option<BlockHeader>)
    ensures header == HeaderOf(m, l, after, result)
  {
    hide HeaderHash, Digest, StateDigest, ResultsJson, Strings;
    if l.tip.height + 1 > MAX_U64 {
      return None;
    }
    var parent := HashHeader(m.crypto, l.tip);
    var transactions := HashOf(m.crypto, Transactions, Strings([result.txId]));
    var results := HashOf(m.crypto, Results, ResultsJson([result]));
    var state := HashState(m, after);
    if parent.None? || transactions.None? || results.None? || state.None? {
      return None;
    }
    return Some(BlockHeader(1, l.genesis.chainId, l.genesisHash, 1, l.tip.height + 1, parent.value, 1,
                            transactions.value, results.value, state.value));
  }

  class MemoryLedger {
    const m: Machine
    const genesis: GenesisManifest
    const genesisHash: string
    const limits: Limits
    var world: World
    var tip: BlockHeader
    var blocks: seq<LedgerBlock>

    function View(): Chain
      reads this
    {
      Chain(world, genesis, genesisHash, tip, blocks, limits)
    }

    ghost predicate Valid()
      reads this
    {
      Sound(m, View())
    }

    constructor FromChain(m: Machine, l: Chain)
      ensures this.m == m && View() == l
    {
      this.m, genesis, genesisHash, limits := m, l.genesis, l.genesisHash, l.limits;
      world, tip, blocks := l.world, l.tip, l.blocks;
    }

    /** `MemoryLedger::new`: null stands for a refused manifest. */
    static method Open(m: Machine, g: GenesisManifest) returns (ledger: MemoryLedger?)
      ensures ledger != null <==> New(m, g).Some?
      ensures ledger != null ==> fresh(ledger) && ledger.m == m && ledger.View() == New(m, g).value && ledger.Valid()
    {
      hide Model.Valid, Digest, StateDigest, ManifestHash, Commitments, Sound;
      ledger := null;
      var hash := HashManifest(m.crypto, g);
      var w, limits := m.readWorld(g.initialWorld), ReadLimits(g.executionLimits);
      if hash.None? || w.None? || limits.None? {
        return;
      }
      var start := w.value;
      var valid := Validate(start, m.blake3);
      if !valid || start.receipts != map[] || start.events != [] || start.nextEventId != 1 {
        return;
      }
      if !(forall a :: a in start.accounts ==> GenesisAccount(m.crypto, start.accounts[a])) || !LimitsOk(limits.value) {
        return;
      }
      var transactions := HashOf(m.crypto, Transactions, Arr([]));
      var results := HashOf(m.crypto, Results, Arr([]));
      var state := HashState(m, start);
      if transactions.None? || results.None? || state.None? {
        return;
      }
      var header := BlockHeader(1, g.chainId, hash.value, 1, 0, ZERO_HASH, 0, transactions.value, results.value,
                                state.value);
      var initial := LedgerBlock(header, [], []);
      var committed := ValidateCommitments(m.crypto, initial);
      if committed.None? {
        return;
      }
      NewIsSound(m, g);
      ledger := new MemoryLedger.FromChain(m, Chain(start, g, hash.value, header, [initial], limits.value));
    }

    /** The checks before a candidate runs; in a sound ledger every account has a key to unwrap. */
    method Admit(tx: LedgerTransaction) returns (id: Option<string>)
      requires Valid()
      ensures id == if Admits(m, View(), tx) then TxId(m.crypto, tx) else None
    {
      hide Verifies, TxId, Chained, Tiled, Counted, Founded, LogExact, Model.Valid;
      if tx.from !in world.accounts {
        return None;
      }
      var account := world.accounts[tx.from];
      var verified := VerifyTransaction(m.crypto, tx, account.publicKey.value, genesis.chainId, genesisHash);
      if !verified || tx.nonce != account.nonce {
        return None;
      }
      if tx.entityId !in world.entities || world.entities[tx.entityId].owner != tx.from {
        return None;
      }
      if world.head >= MAX_INTEGER || world.nextEventId >= MAX_INTEGER {
        return None;
      }
      id := IdOf(m.crypto, tx);
    }

    method ExecuteCandidate(tx: LedgerTransaction) returns (proposal: Option<Proposal>)
      requires Valid()
      ensures proposal == LedgerChain.Propose(m, View(), tx)
    {
      hide Admits, TxId, PostState, Commitments, ResultOf, HeaderOf, Continues;
      var l := View();
      var id := Admit(tx);
      if id.None? {
        NotAdmitted(m, l, tx);
        return None;
      }
      var done := RunCandidate(m, l, tx, id.value);
      if done.None? {
        return None;
      }
      var after, receipt := done.value.0, done.value.1;
      PostStateContinues(m, l, tx);
      var events := NewEventsOf(l.world, after, tx);
      var result := BuildResult(m, tx, id.value, receipt, events);
      if result.None? {
        return None;
      }
      var header := BuildHeader(m, l, after, result.value);
      if header.None? {
        return None;
      }
      var block := LedgerBlock(header.value, [tx], [result.value]);
      var committed := ValidateCommitments(m.crypto, block);
      if committed.None? {
        return None;
      }
      return Some(Proposal(after, block));
    }

    method Propose(tx: LedgerTransaction) returns (block: Option<LedgerBlock>)
      requires Valid()
      ensures block.Some? <==> LedgerChain.Propose(m, View(), tx).Some?
      ensures block.Some? ==> block.value == LedgerChain.Propose(m, View(), tx).value.block
    {
      hide LedgerChain.Propose, Sound;
      var proposal := ExecuteCandidate(tx);
      return if proposal.Some? then Some(proposal.value.block) else None;
    }

    /** Publishes a block only after re-execution gives the same canonical text; a refusal changes nothing. */
    method ApplyBlock(block: LedgerBlock) returns (ok: bool)
      requires Valid()
      modifies this
      ensures Valid()
      ensures ok <==> Apply(m, old(View()), block).Some?
      ensures View() == if ok then Apply(m, old(View()), block).value else old(View())
    {
      hide LedgerChain.Propose, Sound, Commitments, HeaderHash, Canonical, BlockJson;
      ghost var before := View();
      var committed := ValidateCommitments(m.crypto, block);
      var parent := HashHeader(m.crypto, tip);
      if committed.None? || tip.height + 1 > MAX_U64 || block.header.height != tip.height + 1
         || parent != Some(block.header.parentHash) {
        return false;
      }
      CommittedPair(m.crypto, block);
      var proposal := ExecuteCandidate(block.transactions[0]);
      if proposal.None? {
        return false;
      }
      var expected := CanonicalJson(BlockJson(proposal.value.block));
      var supplied := CanonicalJson(BlockJson(block));
      if expected.None? || supplied.None? || expected != supplied {
        return false;
      }
      AppliedIsProposed(m, before, block);
      ExtendIsSound(m, before, block.transactions[0], proposal.value);
      world := proposal.value.world;
      tip := block.header;
      blocks := blocks + [block];
      return true;
    }

    method FindBlock(id: string) returns (found: Option<nat>)
      requires HasResults(View())
      ensures found == Find(blocks, 1, id)
    {
      var n := 1;
      while n < |blocks|
        invariant 1 <= n
        invariant Find(blocks, 1, id) == Find(blocks, n, id)
      {
        if blocks[n].results[0].txId == id {
          return Some(n);
        }
        n := n + 1;
      }
      return None;
    }

    method SubmitTx(tx: LedgerTransaction) returns (block: Option<LedgerBlock>)
      requires Valid()
      modifies this
      ensures Valid() && HasResults(old(View()))
      ensures Submitted(View(), block) == Submit(m, old(View()), tx)
    {
      hide LedgerChain.Propose, Apply, Find, TxId;
      SoundHasResults(m, View());
      hide Sound, Extend, BlockJson, Canonical;
      var id := IdOf(m.crypto, tx);
      if id.None? {
        return None;
      }
      var found := FindBlock(id.value);
      if found.Some? {
        return Some(blocks[found.value]);
      }
      block := SubmitNew(tx, id.value);
    }

    /** Proposes and applies a transaction that no block carries. */
    method SubmitNew(tx: LedgerTransaction, id: string) returns (block: Option<LedgerBlock>)
      requires Valid() && HasResults(View()) && TxId(m.crypto, tx) == Some(id) && Find(View().blocks, 1, id).None?
      modifies this
      ensures Valid() && HasResults(old(View()))
      ensures Submitted(View(), block) == Submit(m, old(View()), tx)
    {
      hide LedgerChain.Propose, Apply, Find, TxId, Sound, Extend, BlockJson, Canonical;
      var proposed := Propose(tx);
      if proposed.None? {
        return None;
      }
      var ok := ApplyBlock(proposed.value);
      return if ok then proposed else None;
    }
  }

  lemma NotAdmitted(m: Machine, l: Chain, tx: LedgerTransaction)
    requires !Admits(m, l, tx) || TxId(m.crypto, tx).None?
    ensures LedgerChain.Propose(m, l, tx).None?
  {
    hide Verifies, TxId;
  }

  /** `candidate.events[event_start..]`. */
  function NewEventsOf(w: World, after: World, tx: LedgerTransaction): (events: seq<Event>)
    requires Continues(w, after, tx)
    ensures events == NewEvents(w, after)
  {
    after.events[|w.events|..]
  }
}
