/**
 What every run of ledger calls keeps: the hash chain, the state and event commitments,
 the nonces, and the replay of the recorded blocks.
 */
module LedgerRuns {
  import opened Common
  import opened Text
  import opened Json
  import opened JsonText
  import opened JsonLaws
  import opened Model
  import opened HostOps
  import opened Execution
  import opened History
  import opened Ledger
  import opened LedgerChain

  // ---------- what a proposal is ----------

  /** The candidate world continues the ledger's: more events, one nonce spent, keys and receipts as before. */
  ghost predicate Continues(w: World, after: World, tx: LedgerTransaction) {
    && w.events < after.events
    && (LogExact(w) ==> LogExact(after))
    && after.receipts == w.receipts
    && after.accounts.Keys == w.accounts.Keys
    && tx.from in w.accounts && w.accounts[tx.from].nonce == tx.nonce
    && forall a :: a in w.accounts ==>
      && after.accounts[a].publicKey == w.accounts[a].publicKey
      && after.accounts[a].nonce == w.accounts[a].nonce + if a == tx.from then 1 else 0
  }

  lemma PostStateContinues(m: Machine, l: Chain, tx: LedgerTransaction)
    requires PostState(m, l, tx).Some?
    ensures Continues(l.world, PostState(m, l, tx).value.0, tx) && Valid(PostState(m, l, tx).value.0, m.blake3)
  {
    hide Execute, Valid, Verifies, TxId, LogExact;
    ExecuteKeepsHistory(Lua(m, l.limits), l.world, tx.entityId, tx.action, tx.args, true);
    var run := Execute(Lua(m, l.limits), l.world, tx.entityId, tx.action, tx.args, true).world;
    var spent := SpendNonce(run, tx);
    var data := TxData(TxId(m.crypto, tx).value, tx.from, tx.nonce);
    LogSurvivesSpending(run, tx);
    AppendGrows(spent, LEDGER_EXECUTED, Some(tx.entityId), data);
    GrowsTransitive(l.world, spent, Append(spent, LEDGER_EXECUTED, Some(tx.entityId), data));
  }

  lemma LogSurvivesSpending(w: World, tx: LedgerTransaction)
    requires tx.from in w.accounts
    ensures forall before :: LogGrows(before, w) ==> LogGrows(before, SpendNonce(w, tx))
  {
    assert LogExact(SpendNonce(w, tx)) == LogExact(w);
  }

  /** The block a proposal carries. */
  ghost predicate Carries(m: Machine, l: Chain, tx: LedgerTransaction, p: Proposal) {
    var h := p.block.header;
    && h.height == l.tip.height + 1 <= MAX_U64
    && h.chainId == l.genesis.chainId && h.genesisHash == l.genesisHash
    && HeaderHash(m.crypto, l.tip) == Some(h.parentHash)
    && StateDigest(m, p.world) == Some(h.postStateDigest)
    && p.block.transactions == [tx] && |p.block.results| == 1
    && Commitments(m.crypto, p.block).Some?
    && var events := NewEvents(l.world, p.world);
      && p.block.results[0].firstEventId == FirstId(events) && p.block.results[0].lastEventId == FinalId(events)
      && Digest(m.crypto, Events, EventsJson(events)) == Some(p.block.results[0].eventsDigest)
  }

  lemma ProposalShape(m: Machine, l: Chain, tx: LedgerTransaction, p: Proposal)
    requires Propose(m, l, tx) == Some(p)
    ensures Carries(m, l, tx, p) && Continues(l.world, p.world, tx) && Valid(p.world, m.blake3)
    ensures TxId(m.crypto, tx) == Some(p.block.results[0].txId)
  {
    hide PostState, Valid, HeaderHash, Digest, Continues, EventsJson, Commitments, TxId, StateDigest, ResultsJson;
    PostStateContinues(m, l, tx);
  }

  /**
   The holder of `key` signed this request for this chain: the text signed has every field
   but the signature.
   */
  ghost predicate SignedBy(c: Crypto, tx: LedgerTransaction, key: string, chainId: string, genesisHash: string) {
    && tx.chainId == chainId && tx.genesisHash == genesisHash
    && c.isKey(key)
    && Canonical(SigningJson(tx)).Some?
    && c.signed(key, c.hash(Sign, Canonical(SigningJson(tx)).value), tx.signature)
  }

  /** The sender has a key in this world and signed with it. */
  ghost predicate SenderSigned(m: Machine, l: Chain, w: World, tx: LedgerTransaction) {
    && tx.from in w.accounts && w.accounts[tx.from].publicKey.Some?
    && SignedBy(m.crypto, tx, w.accounts[tx.from].publicKey.value, l.genesis.chainId, l.genesisHash)
  }

  /**
   Only what its sender signed with the account's key is ever proposed, with the account's
   next nonce, for an entity the sender owns, and while the counters are safe integers.
   */
  lemma ProposalIsAuthorized(m: Machine, l: Chain, tx: LedgerTransaction)
    requires Propose(m, l, tx).Some?
    ensures SenderSigned(m, l, l.world, tx)
    ensures l.world.accounts[tx.from].nonce == tx.nonce
    ensures tx.entityId in l.world.entities && l.world.entities[tx.entityId].owner == tx.from
    ensures l.world.head < MAX_INTEGER && l.world.nextEventId < MAX_INTEGER
  {
    hide Canonical, SigningJson, Execute, Valid, TxId, Commitments, ResultOf, HeaderOf;
  }

  /** The signed text leaves out the signature and nothing else. */
  lemma SigningJsonBinds(a: LedgerTransaction, b: LedgerTransaction)
    ensures SigningJson(a) == SigningJson(b) <==> a == b.(signature := a.signature)
  {
    if SigningJson(a) == SigningJson(b) {
      FieldsInjective(TX_NAMES, TxValues(a), TxValues(b));
      assert TxValues(a)[0] == Int(a.version) && TxValues(b)[0] == Int(b.version);
      assert TxValues(a)[7] == a.args && TxValues(b)[7] == b.args;
    }
  }

  lemma CommittedPair(c: Crypto, block: LedgerBlock)
    requires Commitments(c, block).Some? && block.header.height > 0
    ensures |block.transactions| == |block.results| == 1
  {
  }

  /** An applied block is the ledger's own proposal for its transaction. */
  lemma AppliedIsProposed(m: Machine, l: Chain, block: LedgerBlock)
    requires Apply(m, l, block).Some?
    ensures block.transactions != [] && Propose(m, l, block.transactions[0]).Some?
    ensures var p := Propose(m, l, block.transactions[0]).value;
      p.block == block && Apply(m, l, block).value == Extend(l, p)
  {
    hide Propose, HeaderHash, BlockJson, Canonical, Commitments;
    CommittedPair(m.crypto, block);
    var p := Propose(m, l, block.transactions[0]).value;
    CanonicalInjective(BlockJson(p.block), BlockJson(block));
    BlockJsonInjective(p.block, block);
  }

  /** A proposed block can be applied exactly when the block itself has a canonical text. */
  lemma ProposedApplies(m: Machine, l: Chain, tx: LedgerTransaction, p: Proposal)
    requires Propose(m, l, tx) == Some(p)
    ensures Apply(m, l, p.block) == if Canonical(BlockJson(p.block)).Some? then Some(Extend(l, p)) else None
  {
    hide Propose, HeaderHash, BlockJson, Canonical, Commitments, StateDigest, Digest, EventsJson, Continues;
    ProposalShape(m, l, tx, p);
  }

  // ---------- the invariant ----------

  ghost predicate BlockAt(m: Machine, l: Chain, i: nat)
    requires i < |l.blocks|
  {
    var b := l.blocks[i];
    && b.header.height == i
    && b.header.chainId == l.genesis.chainId && b.header.genesisHash == l.genesisHash
    && Commitments(m.crypto, b).Some?
    && |b.transactions| == |b.results| == (if i == 0 then 0 else 1)
    && (i > 0 ==> HeaderHash(m.crypto, l.blocks[i - 1].header) == Some(b.header.parentHash))
  }

  /** Heights are 0..n, each parent hash is the previous header's, and the tip commits to the world. */
  ghost predicate Chained(m: Machine, l: Chain) {
    && l.blocks != [] && l.tip == l.blocks[|l.blocks| - 1].header
    && (forall i {:trigger BlockAt(m, l, i)} :: 0 <= i < |l.blocks| ==> BlockAt(m, l, i))
    && StateDigest(m, l.world) == Some(l.tip.postStateDigest)
  }

  /** The last event of the blocks before `i`. */
  function LastEvent(blocks: seq<LedgerBlock>, i: nat): nat
    requires i <= |blocks|
  {
    if i < 2 || blocks[i - 1].results == [] || blocks[i - 1].results[0].lastEventId.None? then 0
    else blocks[i - 1].results[0].lastEventId.value
  }

  /** Block `i` covers the events that follow its predecessor's, and its digest is theirs. */
  ghost predicate Covers(m: Machine, l: Chain, i: nat)
    requires 1 <= i < |l.blocks|
  {
    var first, last := LastEvent(l.blocks, i), LastEvent(l.blocks, i + 1);
    && l.blocks[i].results != []
    && first < last <= |l.world.events|
    && l.blocks[i].results[0].firstEventId == Some(first + 1)
    && l.blocks[i].results[0].lastEventId == Some(last)
    && Digest(m.crypto, Events, EventsJson(l.world.events[first..last])) == Some(l.blocks[i].results[0].eventsDigest)
  }

  /** The event ranges of the blocks tile 1..nextEventId - 1. */
  ghost predicate Tiled(m: Machine, l: Chain) {
    && LastEvent(l.blocks, |l.blocks|) == |l.world.events|
    && forall i {:trigger Covers(m, l, i)} :: 1 <= i < |l.blocks| ==> Covers(m, l, i)
  }

  predicate From(b: LedgerBlock, account: string) {
    b.transactions != [] && b.transactions[0].from == account
  }

  /** How many of the blocks are the account's. */
  function Included(blocks: seq<LedgerBlock>, account: string): nat {
    if blocks == [] then 0
    else Included(blocks[..|blocks| - 1], account) + if From(blocks[|blocks| - 1], account) then 1 else 0
  }

  ghost predicate Spends(l: Chain, i: nat)
    requires i < |l.blocks|
  {
    i > 0 ==>
      && l.blocks[i].transactions != []
      && l.blocks[i].transactions[0].nonce == Included(l.blocks[..i], l.blocks[i].transactions[0].from)
  }

  /** Each account's nonce counts its blocks, and its k-th block carries nonce k. */
  ghost predicate Counted(l: Chain) {
    && (forall a :: a in l.world.accounts ==> l.world.accounts[a].nonce == Included(l.blocks, a))
    && (forall i {:trigger Spends(l, i)} :: 0 <= i < |l.blocks| ==> Spends(l, i))
  }

  /** The world is valid, its log exact, its receipts empty, and every account can sign. */
  ghost predicate Clean(m: Machine, l: Chain) {
    && Valid(l.world, m.blake3) && LogExact(l.world) && l.world.receipts == map[]
    && forall a :: a in l.world.accounts ==> l.world.accounts[a].publicKey.Some?
  }

  /** The genesis part: its hash and limits. */
  ghost predicate Founded(m: Machine, l: Chain) {
    && ManifestHash(m.crypto, l.genesis) == Some(l.genesisHash)
    && ReadLimits(l.genesis.executionLimits) == Some(l.limits)
  }

  /** The accounts and their keys are those of the genesis world. */
  ghost predicate KeysKept(m: Machine, l: Chain) {
    match m.readWorld(l.genesis.initialWorld)
    case None => false
    case Some(start) =>
      && l.world.accounts.Keys == start.accounts.Keys
      && forall a :: a in start.accounts ==> l.world.accounts[a].publicKey == start.accounts[a].publicKey
  }

  /** Every block's transaction is signed by its sender. */
  ghost predicate Signed(m: Machine, l: Chain) {
    forall i :: 1 <= i < |l.blocks| ==> SignedBlock(m, l, i)
  }

  ghost predicate SignedBlock(m: Machine, l: Chain, i: nat)
    requires i < |l.blocks|
  {
    l.blocks[i].transactions != [] && SenderSigned(m, l, l.world, l.blocks[i].transactions[0])
  }

  ghost predicate Sound(m: Machine, l: Chain) {
    && Chained(m, l) && Tiled(m, l) && Counted(l) && Clean(m, l) && Founded(m, l)
    && KeysKept(m, l) && Signed(m, l)
  }

  lemma NewIsSound(m: Machine, g: GenesisManifest)
    requires New(m, g).Some?
    ensures Sound(m, New(m, g).value)
  {
    hide Valid, HeaderHash, Digest;
    var l := New(m, g).value;
    assert BlockAt(m, l, 0);
    assert forall a :: Included(l.blocks, a) == 0 by {
      assert l.blocks[..0] == [];
    }
  }

  lemma ChainedExtends(m: Machine, l: Chain, tx: LedgerTransaction, p: Proposal)
    requires Chained(m, l) && Carries(m, l, tx, p)
    ensures Chained(m, Extend(l, p))
  {
    hide HeaderHash, Digest, StateDigest, EventsJson, Commitments;
    var n := |l.blocks|;
    var next := Extend(l, p);
    assert BlockAt(m, l, n - 1);
    forall i | 0 <= i <= n
      ensures BlockAt(m, next, i)
    {
      if i < n {
        assert BlockAt(m, l, i);
      }
    }
  }

  lemma SameLastEvent(l: Chain, p: Proposal, i: nat)
    requires i <= |l.blocks|
    ensures LastEvent(Extend(l, p).blocks, i) == LastEvent(l.blocks, i)
  {
  }

  lemma TiledExtends(m: Machine, l: Chain, tx: LedgerTransaction, p: Proposal)
    requires l.blocks != [] && Tiled(m, l) && LogExact(l.world)
    requires Carries(m, l, tx, p) && Continues(l.world, p.world, tx)
    ensures Tiled(m, Extend(l, p))
  {
    hide HeaderHash, Digest, StateDigest, EventsJson, Commitments;
    var n := |l.blocks|;
    var next := Extend(l, p);
    var before, after := l.world.events, p.world.events;
    assert NewEvents(l.world, p.world) == after[|before|..|after|];
    SameLastEvent(l, p, n);
    assert next.blocks[n] == p.block;
    forall i | 1 <= i <= n
      ensures Covers(m, next, i)
    {
      if i < n {
        assert Covers(m, l, i);
        SameLastEvent(l, p, i);
        SameLastEvent(l, p, i + 1);
        assert next.blocks[i] == l.blocks[i];
        var first, last := LastEvent(l.blocks, i), LastEvent(l.blocks, i + 1);
        assert after[first..last] == before[first..last];
      }
    }
  }

  lemma CountedExtends(l: Chain, tx: LedgerTransaction, p: Proposal)
    requires Counted(l) && l.blocks != [] && p.block.transactions == [tx] && Continues(l.world, p.world, tx)
    ensures Counted(Extend(l, p))
  {
    hide LogExact;
    var next := Extend(l, p);
    var n := |l.blocks|;
    assert next.blocks[..n] == l.blocks;
    forall i | 0 <= i <= n
      ensures Spends(next, i)
    {
      if i < n {
        assert Spends(l, i);
        assert next.blocks[..i] == l.blocks[..i];
      }
    }
  }

  /** One more signed block, and no key changes. */
  lemma SignedExtends(m: Machine, l: Chain, tx: LedgerTransaction, p: Proposal)
    requires KeysKept(m, l) && Signed(m, l) && Continues(l.world, p.world, tx)
    requires p.block.transactions == [tx] && SenderSigned(m, l, l.world, tx)
    ensures KeysKept(m, Extend(l, p)) && Signed(m, Extend(l, p))
  {
    hide SignedBy, LogExact;
    var next := Extend(l, p);
    forall i | 1 <= i < |next.blocks|
      ensures SignedBlock(m, next, i)
    {
      if i < |l.blocks| {
        assert SignedBlock(m, l, i);
      }
    }
  }

  lemma CleanExtends(m: Machine, l: Chain, tx: LedgerTransaction, p: Proposal)
    requires Clean(m, l) && Founded(m, l) && Continues(l.world, p.world, tx) && Valid(p.world, m.blake3)
    ensures Clean(m, Extend(l, p)) && Founded(m, Extend(l, p))
  {
    hide Valid, LogExact, ManifestHash, ReadLimits;
  }

  lemma ExtendIsSound(m: Machine, l: Chain, tx: LedgerTransaction, p: Proposal)
    requires Sound(m, l) && Propose(m, l, tx) == Some(p)
    ensures Sound(m, Extend(l, p))
  {
    hide Valid, Propose, Chained, Tiled, Counted, LogExact, Carries, KeysKept, Signed, SenderSigned, Founded, Extend,
      Continues;
    ProposalShape(m, l, tx, p);
    ProposalIsAuthorized(m, l, tx);
    ChainedHasBlocks(m, l);
    ChainedExtends(m, l, tx, p);
    CleanExtends(m, l, tx, p);
    hide Clean;
    TiledExtends(m, l, tx, p);
    OneTransaction(m, l, tx, p);
    CountedExtends(l, tx, p);
    SignedExtends(m, l, tx, p);
  }

  lemma ChainedHasBlocks(m: Machine, l: Chain)
    requires Chained(m, l)
    ensures l.blocks != []
  {
  }

  lemma OneTransaction(m: Machine, l: Chain, tx: LedgerTransaction, p: Proposal)
    requires Carries(m, l, tx, p)
    ensures p.block.transactions == [tx]
  {
  }

  // ---------- runs ----------

  datatype Request = SubmitTx(tx: LedgerTransaction) | ApplyBlock(block: LedgerBlock)

  lemma SoundHasResults(m: Machine, l: Chain)
    requires Chained(m, l)
    ensures HasResults(l)
  {
    hide Commitments, HeaderHash;
    forall i | 1 <= i < |l.blocks|
      ensures l.blocks[i].results != []
    {
      assert BlockAt(m, l, i);
    }
  }

  /** One call; a refused one leaves the ledger as it was. */
  ghost function Handle(m: Machine, l: Chain, r: Request): Chain {
    match r
    case SubmitTx(tx) => if HasResults(l) then Submit(m, l, tx).chain else l
    case ApplyBlock(block) => if Apply(m, l, block).Some? then Apply(m, l, block).value else l
  }

  ghost function Run(m: Machine, l: Chain, requests: seq<Request>): Chain {
    if requests == [] then l
    else Handle(m, Run(m, l, requests[..|requests| - 1]), requests[|requests| - 1])
  }

  /** A call either changes nothing or appends one proposed block that `apply` accepts. */
  lemma HandleExtends(m: Machine, l: Chain, r: Request) returns (tx: LedgerTransaction, p: Proposal)
    ensures Handle(m, l, r) != l ==>
      && Propose(m, l, tx) == Some(p) && Handle(m, l, r) == Extend(l, p) && Apply(m, l, p.block) == Some(Extend(l, p))
  {
    hide Propose, Apply, Find;
    match r
    case SubmitTx(t) =>
      tx := t;
      if Propose(m, l, tx).Some? {
        p := Propose(m, l, tx).value;
        ProposedApplies(m, l, tx, p);
      } else {
        p := Proposal(l.world, LedgerBlock(l.tip, [], []));
      }
    case ApplyBlock(block) =>
      if Apply(m, l, block).Some? {
        AppliedIsProposed(m, l, block);
        tx, p := block.transactions[0], Propose(m, l, block.transactions[0]).value;
      } else {
        tx := LedgerTransaction(0, "", "", "", 0, 0, "", Null, "");
        p := Proposal(l.world, block);
      }
  }

  /** Every run of submissions and supplied blocks, accepted or refused, from a genesis. */
  lemma {:induction false} EveryRunIsSound(m: Machine, g: GenesisManifest, requests: seq<Request>)
    requires New(m, g).Some?
    ensures var l := Run(m, New(m, g).value, requests); Sound(m, l) && l.genesis == g
    decreases |requests|
  {
    hide Sound, Propose, Apply, Handle;
    if requests == [] {
      NewIsSound(m, g);
      NewKeepsManifest(m, g);
    } else {
      var init, last := requests[..|requests| - 1], requests[|requests| - 1];
      EveryRunIsSound(m, g, init);
      var l := Run(m, New(m, g).value, init);
      var tx, p := HandleExtends(m, l, last);
      if Handle(m, l, last) != l {
        ExtendIsSound(m, l, tx, p);
      }
    }
  }

  lemma NewKeepsManifest(m: Machine, g: GenesisManifest)
    requires New(m, g).Some?
    ensures New(m, g).value.genesis == g && |New(m, g).value.blocks| == 1
  {
    hide Commitments, GenesisWorld, GenesisHeader;
  }

  /** Request `k` of the run appended block `i`, through an entity that the sender owned then. */
  ghost predicate Appended(m: Machine, start: Chain, requests: seq<Request>, k: nat, l: Chain, i: nat)
    requires k < |requests| && 1 <= i < |l.blocks|
  {
    var before := Run(m, start, requests[..k]);
    && before.blocks == l.blocks[..i] && Run(m, start, requests[..k + 1]).blocks == l.blocks[..i + 1]
    && l.blocks[i].transactions != []
    && var tx := l.blocks[i].transactions[0];
       && SenderSigned(m, before, before.world, tx)
       && tx.from in before.world.accounts && before.world.accounts[tx.from].nonce == tx.nonce
       && tx.entityId in before.world.entities && before.world.entities[tx.entityId].owner == tx.from
  }

  /** Whatever calls were made, each block was appended by one of them, signed and by the entity's owner. */
  lemma {:induction false} EveryBlockIsAuthorized(m: Machine, start: Chain, requests: seq<Request>, i: nat)
    requires |start.blocks| <= i < |Run(m, start, requests).blocks| && 1 <= i
    ensures exists k :: 0 <= k < |requests| && Appended(m, start, requests, k, Run(m, start, requests), i)
    decreases |requests|
  {
    hide Propose, Apply, Handle, SignedBy;
    var n := |requests| - 1;
    var init, l := requests[..n], Run(m, start, requests);
    var before := Run(m, start, init);
    var tx, p := HandleExtends(m, before, requests[n]);
    if i < |before.blocks| {
      EveryBlockIsAuthorized(m, start, init, i);
      var k :| 0 <= k < n && Appended(m, start, init, k, before, i);
      assert init[..k] == requests[..k] && init[..k + 1] == requests[..k + 1];
      assert l.blocks[..i] == before.blocks[..i] && l.blocks[..i + 1] == before.blocks[..i + 1];
      assert l.blocks[i] == before.blocks[i];
      assert Appended(m, start, requests, k, l, i);
    } else {
      ProposalIsAuthorized(m, before, tx);
      ProposesOne(m, before, tx, p);
      assert requests[..n + 1] == requests;
      assert l.blocks[..i] == before.blocks && l.blocks[..i + 1] == l.blocks;
      assert Appended(m, start, requests, n, l, i);
    }
  }

  lemma ProposesOne(m: Machine, l: Chain, tx: LedgerTransaction, p: Proposal)
    requires Propose(m, l, tx) == Some(p)
    ensures p.block.transactions == [tx]
  {
    hide PostState, ResultOf, HeaderOf, Commitments;
  }

  // ---------- replay ----------

  /** Apply recorded blocks in order, as a second node would. */
  ghost function Replay(m: Machine, l: Chain, blocks: seq<LedgerBlock>): Option<Chain> {
    if blocks == [] then Some(l)
    else
      match Replay(m, l, blocks[..|blocks| - 1])
      case None => None
      case Some(before) => Apply(m, before, blocks[|blocks| - 1])
  }

  /** Applying a run's recorded blocks to a fresh ledger reproduces the run's ledger exactly. */
  lemma {:induction false} ReplayReproduces(m: Machine, g: GenesisManifest, requests: seq<Request>)
    requires New(m, g).Some?
    ensures var l := Run(m, New(m, g).value, requests);
      l.blocks != [] && Replay(m, New(m, g).value, l.blocks[1..]) == Some(l)
    decreases |requests|
  {
    hide Propose, Apply, Handle, New;
    var start := New(m, g).value;
    if requests == [] {
      NewKeepsManifest(m, g);
      assert start.blocks[1..] == [];
    } else {
      var init, last := requests[..|requests| - 1], requests[|requests| - 1];
      ReplayReproduces(m, g, init);
      var l := Run(m, start, init);
      var tx, p := HandleExtends(m, l, last);
      if Handle(m, l, last) != l {
        ReplayStep(m, start, l, p);
      }
    }
  }

  lemma ReplayStep(m: Machine, start: Chain, l: Chain, p: Proposal)
    requires l.blocks != [] && Replay(m, start, l.blocks[1..]) == Some(l) && Apply(m, l, p.block) == Some(Extend(l, p))
    ensures Replay(m, start, Extend(l, p).blocks[1..]) == Some(Extend(l, p))
  {
    hide Apply;
    var tail := Extend(l, p).blocks[1..];
    assert tail[..|tail| - 1] == l.blocks[1..];
  }
}
