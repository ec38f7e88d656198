/** The in-memory ledger: a hash chain of re-executed blocks (src/ledger_runtime.rs), as functions of its state. */
module LedgerChain {
  import opened Common
  import opened Json
  import opened JsonText
  import opened Model
  import opened HostOps
  import opened Execution
  import opened History
  import opened Ledger

  datatype Limits = Limits(instructions: nat, memory: nat)

  /**
   The foreign parts: cryptography, the source digest, the state root, serde's encoding of
   a world, and the sandboxed Lua machine, a deterministic function of the limits, the
   world and the request.
   */
  datatype Machine = Machine(
    crypto: Crypto,
    blake3: string -> string,
    root: World -> string,
    worldJson: World -> Json,
    readWorld: Json -> Option<World>,
    script: (Limits, World, nat, string, string, Json) -> Outcome)

  /** Execution under the genesis limits. The ledger checks ids and signatures itself. */
  function Lua(m: Machine, limits: Limits): Env {
    Env(m.blake3, m.root, tx => "", (key, signature, tx) => false, r => r,
        (w, id: nat, source, action, args) => m.script(limits, w, id, source, action, args))
  }

  datatype Chain = Chain(
    world: World, genesis: GenesisManifest, genesisHash: string, tip: BlockHeader, blocks: seq<LedgerBlock>,
    limits: Limits)

  const LEDGER_EXECUTED := "ledger_transaction_executed"

  // ---------- genesis ----------

  /** serde reads a record from an object with exactly its fields, or from an array of their values. */
  function ReadLimits(j: Json): Option<Limits> {
    match j
    case Obj(fields) =>
      if fields.Keys == {"instruction_limit", "memory_limit"}
         && AsU64(fields["instruction_limit"]).Some? && AsU64(fields["memory_limit"]).Some?
      then Some(Limits(fields["instruction_limit"].n, fields["memory_limit"].n))
      else None
    case Arr(items) =>
      if |items| == 2 && AsU64(items[0]).Some? && AsU64(items[1]).Some? then Some(Limits(items[0].n, items[1].n))
      else None
    case _ => None
  }

  predicate LimitsOk(limits: Limits) {
    1_000 <= limits.instructions <= 10_000_000 && 1_048_576 <= limits.memory <= 67_108_864
  }

  /** `state_digest`: the receipts are left out. */
  ghost function StateDigest(m: Machine, w: World): Option<string> {
    Digest(m.crypto, State, m.worldJson(w.(receipts := map[])))
  }

  predicate GenesisAccount(c: Crypto, a: Account) {
    a.publicKey.Some? && IsLowerHex(a.publicKey.value, 32) && c.isKey(a.publicKey.value) && a.nonce == 0
  }

  /** No history yet, and every account can sign. */
  ghost predicate GenesisWorld(m: Machine, w: World) {
    && Valid(w, m.blake3)
    && w.receipts == map[] && w.events == [] && w.nextEventId == 1
    && forall a :: a in w.accounts ==> GenesisAccount(m.crypto, w.accounts[a])
  }

  ghost function GenesisHeader(m: Machine, g: GenesisManifest, hash: string, w: World): Option<BlockHeader> {
    match (Digest(m.crypto, Transactions, Arr([])), Digest(m.crypto, Results, Arr([])), StateDigest(m, w))
    case (Some(transactions), Some(results), Some(state)) =>
      Some(BlockHeader(1, g.chainId, hash, 1, 0, ZERO_HASH, 0, transactions, results, state))
    case _ => None
  }

  /** `MemoryLedger::new`. */
  ghost function New(m: Machine, g: GenesisManifest): Option<Chain> {
    match (ManifestHash(m.crypto, g), m.readWorld(g.initialWorld), ReadLimits(g.executionLimits))
    case (Some(hash), Some(w), Some(limits)) =>
      if GenesisWorld(m, w) && LimitsOk(limits) && GenesisHeader(m, g, hash, w).Some? then
        var initial := LedgerBlock(GenesisHeader(m, g, hash, w).value, [], []);
        if Commitments(m.crypto, initial).Some? then
          Some(Chain(w, g, hash, initial.header, [initial], limits))
        else None
      else None
    case _ => None
  }

  // ---------- proposing a block ----------

  datatype Proposal = Proposal(world: World, block: LedgerBlock)

  ghost predicate Admits(m: Machine, l: Chain, tx: LedgerTransaction) {
    && tx.from in l.world.accounts
    && l.world.accounts[tx.from].publicKey.Some?
    && Verifies(m.crypto, tx, l.world.accounts[tx.from].publicKey.value, l.genesis.chainId, l.genesisHash)
    && tx.nonce == l.world.accounts[tx.from].nonce
    && tx.entityId in l.world.entities
    && l.world.entities[tx.entityId].owner == tx.from
    && l.world.head < MAX_INTEGER && l.world.nextEventId < MAX_INTEGER
    && TxId(m.crypto, tx).Some?
  }

  function SpendNonce(w: World, tx: LedgerTransaction): World
    requires tx.from in w.accounts
  {
    w.(accounts := w.accounts[tx.from := w.accounts[tx.from].(nonce := tx.nonce + 1)])
  }

  /** The candidate world with what the contract returned. */
  ghost function PostState(m: Machine, l: Chain, tx: LedgerTransaction): Option<(World, Receipt)> {
    if !Admits(m, l, tx) then None
    else
      var done := Execute(Lua(m, l.limits), l.world, tx.entityId, tx.action, tx.args, true);
      if || done.receipt.None? || tx.from !in done.world.accounts
         || tx.nonce + 1 > MAX_U64 || done.world.nextEventId + 1 > MAX_U64
      then None
      else
        var data := TxData(TxId(m.crypto, tx).value, tx.from, tx.nonce);
        var after := Append(SpendNonce(done.world, tx), LEDGER_EXECUTED, Some(tx.entityId), data);
        if Valid(after, m.blake3) then Some((after, done.receipt.value)) else None
  }

  function FirstId(events: seq<Event>): Option<nat> {
    if events == [] then None else Some(events[0].id)
  }

  function FinalId(events: seq<Event>): Option<nat> {
    if events == [] then None else Some(events[|events| - 1].id)
  }

  ghost function ResultOf(m: Machine, tx: LedgerTransaction, receipt: Receipt, events: seq<Event>)
    : Option<ExecutionResult>
  {
    match (TxId(m.crypto, tx), Digest(m.crypto, Events, EventsJson(events)))
    case (Some(id), Some(digest)) =>
      Some(ExecutionResult(id, tx.from, tx.nonce, true, receipt.messages, receipt.result, FirstId(events),
                           FinalId(events), digest))
    case _ => None
  }

  ghost function HeaderOf(m: Machine, l: Chain, after: World, result: ExecutionResult): Option<BlockHeader> {
    match (HeaderHash(m.crypto, l.tip), Digest(m.crypto, Transactions, Strings([result.txId])),
           Digest(m.crypto, Results, ResultsJson([result])), StateDigest(m, after))
    case (Some(parent), Some(transactions), Some(results), Some(state)) =>
      if l.tip.height + 1 > MAX_U64 then None
      else
        Some(BlockHeader(1, l.genesis.chainId, l.genesisHash, 1, l.tip.height + 1, parent, 1, transactions, results,
                         state))
    case _ => None
  }

  /** `execute_candidate`. */
  ghost function Propose(m: Machine, l: Chain, tx: LedgerTransaction): Option<Proposal> {
    match PostState(m, l, tx)
    case None => None
    case Some((after, receipt)) =>
      var result := ResultOf(m, tx, receipt, NewEvents(l.world, after));
      if result.None? || HeaderOf(m, l, after, result.value).None? then None
      else
        var block := LedgerBlock(HeaderOf(m, l, after, result.value).value, [tx], [result.value]);
        if Commitments(m.crypto, block).Some? then Some(Proposal(after, block)) else None
  }

  function Extend(l: Chain, p: Proposal): Chain {
    l.(world := p.world, tip := p.block.header, blocks := l.blocks + [p.block])
  }

  // ---------- appending a block ----------

  /** `apply`: re-execute the block's transaction and compare the canonical text of both blocks. */
  ghost function Apply(m: Machine, l: Chain, block: LedgerBlock): Option<Chain> {
    if Commitments(m.crypto, block).None? || l.tip.height + 1 > MAX_U64 || block.header.height != l.tip.height + 1
       || HeaderHash(m.crypto, l.tip) != Some(block.header.parentHash)
    then None
    else
      match Propose(m, l, block.transactions[0])
      case None => None
      case Some(p) =>
        if Canonical(BlockJson(p.block)).Some? && Canonical(BlockJson(p.block)) == Canonical(BlockJson(block)) then
          Some(l.(world := p.world, tip := block.header, blocks := l.blocks + [block]))
        else None
  }

  /** The first block from `from` on whose transaction has this id. */
  function Find(blocks: seq<LedgerBlock>, from: nat, id: string): (found: Option<nat>)
    requires forall i :: from <= i < |blocks| ==> blocks[i].results != []
    ensures found.Some? ==> from <= found.value < |blocks| && blocks[found.value].results[0].txId == id
    ensures forall i :: from <= i < |blocks| && (found.None? || i < found.value) ==> blocks[i].results[0].txId != id
    decreases |blocks| - from
  {
    if from >= |blocks| then None
    else if blocks[from].results[0].txId == id then Some(from)
    else Find(blocks, from + 1, id)
  }

  /** Every block after the first has a result, which the duplicate search reads. */
  predicate HasResults(l: Chain) {
    forall i :: 1 <= i < |l.blocks| ==> l.blocks[i].results != []
  }

  datatype Submitted = Submitted(chain: Chain, block: Option<LedgerBlock>)

  /** `submit`: an included transaction answers with its block; a new one is proposed and applied. */
  ghost function Submit(m: Machine, l: Chain, tx: LedgerTransaction): Submitted
    requires HasResults(l)
  {
    match TxId(m.crypto, tx)
    case None => Submitted(l, None)
    case Some(id) =>
      match Find(l.blocks, 1, id)
      case Some(i) => Submitted(l, Some(l.blocks[i]))
      case None =>
        match Propose(m, l, tx)
        case None => Submitted(l, None)
        case Some(p) =>
          match Apply(m, l, p.block)
          case None => Submitted(l, None)
          case Some(next) => Submitted(next, Some(p.block))
  }
}
