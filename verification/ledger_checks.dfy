/**
 What the checks of the ledger let through, condition by condition: manifests, headers,
 transactions and block bodies, and that a block records what its contract returned.
 */
module LedgerChecks {
  import opened Common
  import opened Text
  import opened Json
  import opened JsonText
  import opened Model
  import opened Execution
  import opened History
  import opened Ledger
  import opened LedgerChain
  import opened LedgerRuns

  /** That many bytes in lower-case hex. */
  ghost predicate HexOf(s: string, bytes: nat) {
    |s| == 2 * bytes && forall i :: 0 <= i < |s| ==> s[i] in "0123456789abcdef"
  }

  lemma HexCharacter(c: char)
    ensures IsDigit(c) || 'a' <= c <= 'f' <==> c in "0123456789abcdef"
  {
    var h := "0123456789abcdef";
    if '0' <= c <= '9' {
      assert h[c as int - 48] == c;
    } else if 'a' <= c <= 'f' {
      assert h[c as int - 87] == c;
    }
  }

  lemma HexAgrees(s: string, bytes: nat)
    ensures IsLowerHex(s, bytes) <==> HexOf(s, bytes)
  {
    forall i | 0 <= i < |s|
      ensures IsDigit(s[i]) || 'a' <= s[i] <= 'f' <==> s[i] in "0123456789abcdef"
    {
      HexCharacter(s[i]);
    }
  }

  /** The hash of a value's canonical text in one domain. */
  ghost predicate Hashes(c: Crypto, domain: Domain, v: Json, hash: string) {
    Canonical(v).Some? && hash == c.hash(domain, Canonical(v).value)
  }

  // ---------- transactions and headers ----------

  ghost predicate WellFormedRequest(tx: LedgerTransaction) {
    && tx.version == 1 && tx.chainId != "" && tx.from != "" && tx.action != ""
    && HexOf(tx.genesisHash, 32) && HexOf(tx.signature, 64) && Canonical(SigningJson(tx)).Some?
  }

  /** A request has an id exactly if it is well formed and prints; the id hashes all of it, signature included. */
  lemma TxIdMeans(c: Crypto, tx: LedgerTransaction)
    ensures TxId(c, tx).Some? <==> WellFormedRequest(tx) && Canonical(TxJson(tx)).Some?
    ensures TxId(c, tx).Some? ==> Hashes(c, Tx, TxJson(tx), TxId(c, tx).value)
  {
    hide Canonical, SigningJson, TxJson, IsLowerHex, HexOf;
    HexAgrees(tx.genesisHash, 32);
    HexAgrees(tx.signature, 64);
  }

  /** It verifies exactly if it is well formed and signed for this chain by a proper key. */
  lemma VerifiesMeans(c: Crypto, tx: LedgerTransaction, key: string, chainId: string, genesisHash: string)
    ensures Verifies(c, tx, key, chainId, genesisHash) <==>
      WellFormedRequest(tx) && HexOf(key, 32) && SignedBy(c, tx, key, chainId, genesisHash)
  {
    hide Canonical, SigningJson, IsLowerHex, HexOf;
    HexAgrees(tx.genesisHash, 32);
    HexAgrees(tx.signature, 64);
    HexAgrees(key, 32);
  }

  ghost predicate WellFormedHeader(h: BlockHeader) {
    && h.version == 1 && h.rulesVersion == 1 && h.chainId != ""
    && (h.height == 0 ==> h.txCount == 0 && |h.parentHash| == 64 && forall i :: 0 <= i < 64 ==> h.parentHash[i] == '0')
    && (h.height > 0 ==> h.txCount == 1)
    && HexOf(h.genesisHash, 32) && HexOf(h.parentHash, 32) && HexOf(h.transactionsDigest, 32)
    && HexOf(h.resultsDigest, 32) && HexOf(h.postStateDigest, 32)
  }

  /** A header is hashed exactly if it is well formed and prints. */
  lemma HeaderHashMeans(c: Crypto, h: BlockHeader)
    ensures HeaderHash(c, h).Some? <==> WellFormedHeader(h) && Canonical(HeaderJson(h)).Some?
    ensures HeaderHash(c, h).Some? ==> Hashes(c, Header, HeaderJson(h), HeaderHash(c, h).value)
  {
    hide Canonical, HeaderJson, IsLowerHex, HexOf;
    HexAgrees(h.genesisHash, 32);
    HexAgrees(h.parentHash, 32);
    HexAgrees(h.transactionsDigest, 32);
    HexAgrees(h.resultsDigest, 32);
    HexAgrees(h.postStateDigest, 32);
    ZeroText(h.parentHash);
  }

  lemma ZeroText(s: string)
    ensures s == ZERO_HASH <==> |s| == 64 && forall i :: 0 <= i < 64 ==> s[i] == '0'
  {
    hide Zeros;
    if |s| == 64 && forall i :: 0 <= i < 64 ==> s[i] == '0' {
      assert forall i :: 0 <= i < 64 ==> s[i] == ZERO_HASH[i];
    }
  }

  // ---------- block bodies ----------

  /** A transaction and its result agree with each other and with the header. */
  ghost predicate PairStands(c: Crypto, h: BlockHeader, tx: LedgerTransaction, r: ExecutionResult) {
    && tx.chainId == h.chainId && tx.genesisHash == h.genesisHash
    && WellFormedRequest(tx) && Hashes(c, Tx, TxJson(tx), r.txId)
    && r.ok && r.from == tx.from && r.nonce == tx.nonce && HexOf(r.eventsDigest, 32)
    && (r.firstEventId.Some? <==> r.lastEventId.Some?)
    && (r.firstEventId.Some? && r.lastEventId.Some? ==> 0 < r.firstEventId.value <= r.lastEventId.value)
  }

  lemma PairAgrees(c: Crypto, h: BlockHeader, tx: LedgerTransaction, r: ExecutionResult)
    ensures PairOk(c, h, tx, r) <==> PairStands(c, h, tx, r)
  {
    hide Canonical, SigningJson, TxJson, HexOf, IsLowerHex, TxId, WellFormedRequest;
    TxIdMeans(c, tx);
    HexAgrees(r.eventsDigest, 32);
  }

  /** A block's body matches its header exactly if every pair stands and both lists have the header's digests. */
  lemma CommitmentsMean(c: Crypto, b: LedgerBlock)
    ensures Commitments(c, b).Some? <==>
      && HeaderHash(c, b.header).Some?
      && |b.transactions| == |b.results| == b.header.txCount
      && (forall i :: 0 <= i < |b.transactions| && i < |b.results| ==>
        PairStands(c, b.header, b.transactions[i], b.results[i]))
      && Hashes(c, Transactions, Strings(Ids(b.results)), b.header.transactionsDigest)
      && Hashes(c, Results, ResultsJson(b.results), b.header.resultsDigest)
    ensures Commitments(c, b).Some? ==> Commitments(c, b) == HeaderHash(c, b.header)
  {
    hide Canonical, HeaderHash, PairOk, PairStands, Strings, ResultsJson, Ids;
    forall i | 0 <= i < |b.transactions| && i < |b.results|
      ensures PairOk(c, b.header, b.transactions[i], b.results[i]) <==>
        PairStands(c, b.header, b.transactions[i], b.results[i])
    {
      PairAgrees(c, b.header, b.transactions[i], b.results[i]);
    }
  }

  // ---------- events ----------

  /** What the events digest hashes determines the events, field by field. */
  lemma EventsJsonBinds(a: seq<Event>, b: seq<Event>)
    requires EventsJson(a) == EventsJson(b)
    ensures a == b
  {
    var x, y := EventsJson(a).items, EventsJson(b).items;
    assert |x| == |a| && |y| == |b|;
    forall i | 0 <= i < |a|
      ensures a[i] == b[i]
    {
      assert x[i] == y[i];
      EventBinds(a[i], b[i]);
    }
  }

  lemma EventBinds(a: Event, b: Event)
    requires Obj(Fields(EVENT_NAMES, [Int(a.id), Int(a.head), Str(a.kind), Maybe(a.entityId), a.data])) ==
      Obj(Fields(EVENT_NAMES, [Int(b.id), Int(b.head), Str(b.kind), Maybe(b.entityId), b.data]))
    ensures a == b
  {
    var x := [Int(a.id), Int(a.head), Str(a.kind), Maybe(a.entityId), a.data];
    var y := [Int(b.id), Int(b.head), Str(b.kind), Maybe(b.entityId), b.data];
    FieldsInjective(EVENT_NAMES, x, y);
    assert x[0] == y[0] && x[1] == y[1] && x[2] == y[2] && x[3] == y[3] && x[4] == y[4];
  }

  // ---------- manifests ----------

  /** An accepted manifest is of the known versions, and its world is a valid beginning in which everyone can sign. */
  lemma AcceptedManifest(m: Machine, g: GenesisManifest)
    requires New(m, g).Some?
    ensures g.version == 1 && g.encodingVersion == 1 && g.rulesVersion == 1 && g.chainId != ""
    ensures var l := New(m, g).value;
      && m.readWorld(g.initialWorld) == Some(l.world) && Valid(l.world, m.blake3)
      && l.world.receipts == map[] && l.world.events == [] && l.world.nextEventId == 1
      && (forall a :: a in l.world.accounts ==>
        && l.world.accounts[a].nonce == 0 && l.world.accounts[a].publicKey.Some?
        && HexOf(l.world.accounts[a].publicKey.value, 32) && m.crypto.isKey(l.world.accounts[a].publicKey.value))
      && 1_000 <= l.limits.instructions <= 10_000_000 && 1_048_576 <= l.limits.memory <= 67_108_864
      && Hashes(m.crypto, Manifest, ManifestJson(g), l.genesisHash)
      && l.tip.height == 0 && |l.blocks| == 1 && l.blocks[0] == LedgerBlock(l.tip, [], [])
      && l.tip.chainId == g.chainId && l.tip.genesisHash == l.genesisHash
  {
    hide Valid, Canonical, ManifestJson, IsLowerHex, HexOf, Commitments, StateDigest, ReadLimits;
    var w := New(m, g).value.world;
    forall a | a in w.accounts
      ensures GenesisAccount(m.crypto, w.accounts[a]) && HexOf(w.accounts[a].publicKey.value, 32)
    {
      HexAgrees(w.accounts[a].publicKey.value, 32);
    }
  }

  // ---------- what a block records ----------

  /** The entity's contract, run under the ledger's limits on the ledger's world, comes to this result. */
  ghost predicate ContractReturns(
    m: Machine, l: Chain, tx: LedgerTransaction, messages: seq<string>, result: Json)
  {
    && tx.entityId in l.world.entities && l.world.entities[tx.entityId].contract.Some?
    && l.world.entities[tx.entityId].contract.value in l.world.contracts
    && match m.script(l.limits, l.world, tx.entityId,
                      l.world.contracts[l.world.entities[tx.entityId].contract.value].source, tx.action, tx.args)
       case Failed => false
       case Finished(calls, said, value) => said == messages && value == Some(result)
  }

  /** A proposed block records its transaction, and of its execution what the contract returned. */
  lemma ProposalRecords(m: Machine, l: Chain, tx: LedgerTransaction, p: Proposal)
    requires Propose(m, l, tx) == Some(p)
    ensures p.block.transactions == [tx] && |p.block.results| == 1
    ensures var r := p.block.results[0];
      && r.ok && r.from == tx.from && r.nonce == tx.nonce && Some(r.txId) == TxId(m.crypto, tx)
      && ContractReturns(m, l, tx, r.messages, r.result)
  {
    hide Valid, Commitments, HeaderOf, Digest, TxId, EventsJson, Admits;
    RunReturns(m, l, tx);
  }

  lemma RunReturns(m: Machine, l: Chain, tx: LedgerTransaction)
    ensures PostState(m, l, tx).Some? ==>
      ContractReturns(m, l, tx, PostState(m, l, tx).value.1.messages, PostState(m, l, tx).value.1.result)
  {
    hide Valid, Conclude, Admits, TxId;
  }
}
