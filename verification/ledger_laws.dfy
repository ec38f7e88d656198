/**
 What the hashes of a ledger promise when they do not collide: transaction ids are
 distinct, resubmission is idempotent, and the tip hash fixes the whole ledger. And when a
 proposed block can be applied.
 */
module LedgerLaws {
  import opened Common
  import opened Text
  import opened Json
  import opened JsonText
  import opened JsonLaws
  import opened Model
  import opened History
  import opened Ledger
  import opened LedgerChain
  import opened LedgerRuns

  // ---------- which values a ledger hashes ----------

  /** The values whose digests a block carries. */
  function Hashed(b: LedgerBlock): set<Preimage> {
    {Preimage(Header, HeaderJson(b.header)), Preimage(Transactions, Strings(Ids(b.results))),
     Preimage(Results, ResultsJson(b.results))}
    + set tx | tx in b.transactions :: Preimage(Tx, TxJson(tx))
  }

  function HashedBlocks(blocks: seq<LedgerBlock>): set<Preimage> {
    if blocks == [] then {} else HashedBlocks(blocks[..|blocks| - 1]) + Hashed(blocks[|blocks| - 1])
  }

  function HashedLedger(m: Machine, l: Chain): set<Preimage> {
    HashedBlocks(l.blocks)
    + {Preimage(Manifest, ManifestJson(l.genesis)), Preimage(State, m.worldJson(l.world.(receipts := map[])))}
  }

  lemma {:induction false} BlockIsHashed(blocks: seq<LedgerBlock>, i: nat)
    requires i < |blocks|
    ensures Hashed(blocks[i]) <= HashedBlocks(blocks)
  {
    if i == |blocks| - 1 {
    } else {
      BlockIsHashed(blocks[..|blocks| - 1], i);
    }
  }

  lemma TransactionIsHashed(blocks: seq<LedgerBlock>, i: nat)
    requires i < |blocks| && blocks[i].transactions != []
    ensures Preimage(Tx, TxJson(blocks[i].transactions[0])) in HashedBlocks(blocks)
  {
    hide HashedBlocks;
    BlockIsHashed(blocks, i);
    assert blocks[i].transactions[0] in blocks[i].transactions;
  }

  // ---------- transaction ids ----------

  lemma TxIdBinds(c: Crypto, s: set<Preimage>, a: LedgerTransaction, b: LedgerTransaction)
    requires CollisionFree(c, s) && Preimage(Tx, TxJson(a)) in s && Preimage(Tx, TxJson(b)) in s
    requires TxId(c, a).Some? && TxId(c, a) == TxId(c, b)
    ensures a == b
  {
    hide Digest, CollisionFree, TxJson;
    DigestBinds(c, s, Tx, TxJson(a), TxJson(b));
    TxJsonInjective(a, b);
  }

  /** A block's id is its transaction's. */
  lemma BlockTxId(m: Machine, l: Chain, i: nat)
    requires Chained(m, l) && 1 <= i < |l.blocks|
    ensures |l.blocks[i].transactions| == |l.blocks[i].results| == 1
    ensures TxId(m.crypto, l.blocks[i].transactions[0]) == Some(l.blocks[i].results[0].txId)
  {
    hide Digest, HeaderHash, TxId, StateDigest;
    assert BlockAt(m, l, i);
    assert PairOk(m.crypto, l.blocks[i].header, l.blocks[i].transactions[0], l.blocks[i].results[0]);
  }

  lemma {:induction false} IncludedGrows(blocks: seq<LedgerBlock>, i: nat, j: nat, account: string)
    requires i < j <= |blocks| && From(blocks[i], account)
    ensures Included(blocks[..i], account) < Included(blocks[..j], account)
    decreases j
  {
    assert blocks[..j][..j - 1] == blocks[..j - 1];
    if i < j - 1 {
      IncludedGrows(blocks, i, j - 1, account);
    } else {
      assert blocks[..j][j - 1] == blocks[i];
    }
  }

  /** The transactions of two blocks of a run are different. */
  lemma DistinctTransactions(m: Machine, l: Chain, i: nat, j: nat)
    requires Sound(m, l) && 1 <= i < j < |l.blocks|
    requires l.blocks[i].transactions != [] && l.blocks[j].transactions != []
    ensures l.blocks[i].transactions[0] != l.blocks[j].transactions[0]
  {
    hide Chained, Tiled, Clean, Founded;
    assert Spends(l, i) && Spends(l, j);
    if l.blocks[i].transactions[0].from == l.blocks[j].transactions[0].from {
      IncludedGrows(l.blocks, i, j, l.blocks[j].transactions[0].from);
    }
  }

  /** All transaction ids of a run are distinct. */
  lemma DistinctIds(m: Machine, l: Chain, i: nat, j: nat)
    requires Sound(m, l) && CollisionFree(m.crypto, HashedBlocks(l.blocks)) && 1 <= i < j < |l.blocks|
    ensures l.blocks[i].results != [] && l.blocks[j].results != []
    ensures l.blocks[i].results[0].txId != l.blocks[j].results[0].txId
  {
    hide TxId, Chained, Tiled, Counted, Clean, Founded, CollisionFree, HashedBlocks;
    BlockTxId(m, l, i);
    BlockTxId(m, l, j);
    DistinctTransactions(m, l, i, j);
    TransactionIsHashed(l.blocks, i);
    TransactionIsHashed(l.blocks, j);
    if l.blocks[i].results[0].txId == l.blocks[j].results[0].txId {
      TxIdBinds(m.crypto, HashedBlocks(l.blocks), l.blocks[i].transactions[0], l.blocks[j].transactions[0]);
    }
  }

  /** Submitting an included transaction again returns its original block and changes nothing. */
  lemma ResubmitReturnsOriginal(m: Machine, l: Chain, i: nat)
    requires Sound(m, l) && CollisionFree(m.crypto, HashedBlocks(l.blocks)) && 1 <= i < |l.blocks|
    ensures l.blocks[i].transactions != [] && HasResults(l)
    ensures Submit(m, l, l.blocks[i].transactions[0]) == Submitted(l, Some(l.blocks[i]))
  {
    hide TxId, Chained, Tiled, Counted, Clean, Founded, CollisionFree, HashedBlocks, Propose, Apply;
    BlockTxId(m, l, i);
    SoundHasResults(m, l);
    var found := Find(l.blocks, 1, l.blocks[i].results[0].txId);
    if found.Some? && found.value != i {
      DistinctIds(m, l, found.value, i);
    }
  }

  // ---------- when a proposed block can be applied ----------

  /** All values fit. */
  ghost predicate AllFit(values: seq<Json>, depth: nat) {
    forall i :: 0 <= i < |values| ==> Fits(values[i], depth)
  }

  ghost predicate FieldsAllFit(fields: map<string, Json>, depth: nat) {
    forall k :: k in fields ==> Fits(fields[k], depth)
  }

  lemma FieldsFit(names: seq<string>, values: seq<Json>, depth: nat)
    requires |names| == |values| && Distinct(names)
    ensures FieldsAllFit(Fields(names, values), depth) <==> AllFit(values, depth)
  {
    hide Fits, Fields;
    var fields := Fields(names, values);
    FieldNames(names, values);
    forall i | 0 <= i < |names|
      ensures names[i] in fields && fields[names[i]] == values[i]
    {
      FieldAt(names, values, i);
    }
    if AllFit(values, depth) {
      forall k | k in fields
        ensures Fits(fields[k], depth)
      {
        var i :| 0 <= i < |names| && names[i] == k;
        assert Fits(values[i], depth);
      }
    }
    if FieldsAllFit(fields, depth) {
      forall i | 0 <= i < |values|
        ensures Fits(values[i], depth)
      {
        assert names[i] in fields;
      }
    }
  }

  lemma {:induction false} FieldNames(names: seq<string>, values: seq<Json>)
    requires |names| == |values|
    ensures forall k :: k in Fields(names, values) <==> k in names
  {
    if names == [] {
    } else {
      var last := |names| - 1;
      FieldNames(names[..last], values[..last]);
      assert names == names[..last] + [names[last]];
    }
  }

  /** A record fits when each of its fields does, one level deeper. */
  lemma RecordFits(names: seq<string>, values: seq<Json>, depth: nat)
    requires |names| == |values| && Distinct(names)
    ensures Fits(Obj(Fields(names, values)), depth) <==>
      depth <= MAX_DEPTH && forall i :: 0 <= i < |values| ==> Fits(values[i], depth + 1)
  {
    hide Fields;
    FieldsFit(names, values, depth + 1);
    ObjectFits(Fields(names, values), depth);
    hide Fits, FieldsAllFit;
  }

  lemma ObjectFits(fields: map<string, Json>, depth: nat)
    ensures Fits(Obj(fields), depth) <==> depth <= MAX_DEPTH && FieldsAllFit(fields, depth + 1)
  {
  }

  predicate IsLeaf(v: Json) {
    !v.Arr? && !v.Obj?
  }

  lemma LeafFits(v: Json, from: nat, depth: nat)
    requires IsLeaf(v) && Fits(v, from) && depth <= MAX_DEPTH
    ensures Fits(v, depth)
  {
  }

  lemma HeaderFits(h: BlockHeader, from: nat, depth: nat)
    requires Fits(HeaderJson(h), from) && depth < MAX_DEPTH
    ensures Fits(HeaderJson(h), depth)
  {
    hide Fits, Fields;
    RecordFits(HEADER_NAMES, HeaderValues(h), from);
    RecordFits(HEADER_NAMES, HeaderValues(h), depth);
    forall i | 0 <= i < |HeaderValues(h)|
      ensures Fits(HeaderValues(h)[i], depth + 1)
    {
      LeafFits(HeaderValues(h)[i], from + 1, depth + 1);
    }
  }

  /** Moving a transaction deeper only matters to its arguments. */
  lemma TxFits(tx: LedgerTransaction, from: nat, depth: nat)
    requires Fits(TxJson(tx), from) && depth < MAX_DEPTH
    ensures Fits(TxJson(tx), depth) <==> Fits(tx.args, depth + 1)
  {
    hide Fits, Fields;
    var names, values := TX_NAMES + ["signature"], TxValues(tx) + [Str(tx.signature)];
    RecordFits(names, values, from);
    RecordFits(names, values, depth);
    assert values[7] == tx.args;
    forall i | 0 <= i < |values| && i != 7
      ensures Fits(values[i], depth + 1)
    {
      LeafFits(values[i], from + 1, depth + 1);
    }
  }

  lemma StringsFit(items: seq<string>, depth: nat)
    requires depth < MAX_DEPTH
    ensures Fits(Strings(items), depth)
  {
  }

  lemma ResultFits(r: ExecutionResult, from: nat, depth: nat)
    requires Fits(ResultJson(r), from) && depth < MAX_DEPTH - 1
    ensures Fits(ResultJson(r), depth) <==> Fits(r.result, depth + 1)
  {
    hide Fits, Fields, Strings;
    RecordFits(RESULT_NAMES, ResultValues(r), from);
    RecordFits(RESULT_NAMES, ResultValues(r), depth);
    StringsFit(r.messages, depth + 1);
    assert ResultValues(r)[5] == r.result && ResultValues(r)[4] == Strings(r.messages);
    forall i | 0 <= i < |ResultValues(r)| && i != 5 && i != 4
      ensures Fits(ResultValues(r)[i], depth + 1)
    {
      LeafFits(ResultValues(r)[i], from + 1, depth + 1);
    }
  }

  lemma SingletonFits(v: Json, depth: nat)
    ensures Fits(Arr([v]), depth) <==> depth <= MAX_DEPTH && Fits(v, depth + 1)
  {
    assert Arr([v]).items[0] == v;
  }

  lemma SingletonJson(tx: LedgerTransaction, r: ExecutionResult)
    ensures TxsJson([tx]) == Arr([TxJson(tx)]) && ResultsJson([r]) == Arr([ResultJson(r)])
  {
  }

  lemma BlockFieldsFit(b: LedgerBlock)
    ensures Fits(BlockJson(b), 0) <==>
      Fits(HeaderJson(b.header), 1) && Fits(TxsJson(b.transactions), 1) && Fits(ResultsJson(b.results), 1)
  {
    hide Fits, Fields;
    var values := [HeaderJson(b.header), TxsJson(b.transactions), ResultsJson(b.results)];
    RecordFits(BLOCK_NAMES, values, 0);
    assert values[0] == HeaderJson(b.header) && values[1] == TxsJson(b.transactions)
      && values[2] == ResultsJson(b.results);
  }

  /** In a block, the arguments and the result sit three levels down. */
  lemma BlockFits(b: LedgerBlock, tx: LedgerTransaction, r: ExecutionResult)
    requires b.transactions == [tx] && b.results == [r]
    requires Fits(HeaderJson(b.header), 0) && Fits(TxJson(tx), 0) && Fits(ResultJson(r), 1)
    ensures Fits(BlockJson(b), 0) <==> Fits(tx.args, 3) && Fits(r.result, 3)
  {
    hide Fits, HeaderJson, TxJson, ResultJson, TxsJson, ResultsJson, BlockJson;
    BlockFieldsFit(b);
    HeaderFits(b.header, 0, 1);
    SingletonJson(tx, r);
    SingletonFits(TxJson(tx), 1);
    SingletonFits(ResultJson(r), 1);
    TxFits(tx, 0, 2);
    ResultFits(r, 1, 2);
  }

  lemma ProposedParts(m: Machine, l: Chain, tx: LedgerTransaction, p: Proposal)
    requires Propose(m, l, tx) == Some(p)
    ensures p.block.transactions == [tx] && |p.block.results| == 1
    ensures Fits(HeaderJson(p.block.header), 0) && Fits(TxJson(tx), 0) && Fits(ResultJson(p.block.results[0]), 1)
  {
    hide Propose, Fits, HeaderJson, TxJson, ResultJson, Valid, StateDigest, EventsJson, Continues, Print;
    ProposalShape(m, l, tx, p);
    var r := p.block.results[0];
    assert p.block.results == [r];
    SingletonJson(tx, r);
    SingletonFits(ResultJson(r), 0);
  }

  /**
   A proposed block can be applied exactly when its arguments and result nest at most 29
   levels and the block's text is at most 1 MiB. Signing allows arguments 31 levels.
   */
  lemma AppliesIff(m: Machine, l: Chain, tx: LedgerTransaction, p: Proposal)
    requires Propose(m, l, tx) == Some(p)
    ensures |p.block.results| == 1
    ensures Apply(m, l, p.block).Some? <==>
      Fits(tx.args, 3) && Fits(p.block.results[0].result, 3) && |Utf8(Print(BlockJson(p.block)))| <= MAX_BYTES
    ensures Apply(m, l, p.block).Some? ==> Apply(m, l, p.block).value == Extend(l, p)
  {
    hide Propose, Apply, Fits, BlockJson, HeaderJson, TxJson, ResultJson, Utf8, Print;
    ProposedApplies(m, l, tx, p);
    ProposedParts(m, l, tx, p);
    BlockFits(p.block, tx, p.block.results[0]);
  }

  function Nested(levels: nat): Json {
    if levels == 0 then Null else Arr([Nested(levels - 1)])
  }

  lemma {:induction false} NestedFits(levels: nat, depth: nat)
    ensures Fits(Nested(levels), depth) <==> depth + levels <= MAX_DEPTH
    decreases levels
  {
    if levels == 0 {
    } else {
      NestedFits(levels - 1, depth + 1);
      SingletonFits(Nested(levels - 1), depth);
    }
  }

  /** A transaction with small numbers can be signed and hashed as long as its arguments fit one level down. */
  lemma SignableFits(tx: LedgerTransaction)
    requires Fits(tx.args, 1)
    requires tx.version <= MAX_INTEGER && tx.nonce <= MAX_INTEGER && tx.entityId <= MAX_INTEGER
    ensures Fits(SigningJson(tx), 0) && Fits(TxJson(tx), 0)
  {
    hide Fields;
    var values := TxValues(tx) + [Str(tx.signature)];
    RecordFits(TX_NAMES, TxValues(tx), 0);
    RecordFits(TX_NAMES + ["signature"], values, 0);
    assert forall i :: 0 <= i < |TxValues(tx)| ==> Fits(TxValues(tx)[i], 1);
    assert forall i :: 0 <= i < |values| ==> Fits(values[i], 1);
  }

  /** Arguments 30 or 31 levels deep can be signed, yet no block proposed for them can be applied. */
  lemma DeepArgumentsCannotBeApplied(m: Machine, l: Chain, tx: LedgerTransaction, levels: nat)
    requires tx.args == Nested(levels) && 30 <= levels <= 31
    requires tx.version <= MAX_INTEGER && tx.nonce <= MAX_INTEGER && tx.entityId <= MAX_INTEGER
    ensures Fits(SigningJson(tx), 0) && Fits(TxJson(tx), 0)
    ensures Propose(m, l, tx).Some? ==> Apply(m, l, Propose(m, l, tx).value.block) == None
    ensures HasResults(l) && TxId(m.crypto, tx).Some? && Find(l.blocks, 1, TxId(m.crypto, tx).value).None? ==>
      Submit(m, l, tx) == Submitted(l, None)
  {
    hide Propose, Apply, Fits, Find, TxId, HasResults, SigningJson, TxJson;
    NestedFits(levels, 1);
    NestedFits(levels, 3);
    SignableFits(tx);
    if Propose(m, l, tx).Some? {
      AppliesIff(m, l, tx, Propose(m, l, tx).value);
    }
  }

  // ---------- what the tip hash fixes ----------

  /** Equal header hashes come from equal headers. */
  lemma HeaderHashBinds(c: Crypto, s: set<Preimage>, a: BlockHeader, b: BlockHeader)
    requires CollisionFree(c, s) && Preimage(Header, HeaderJson(a)) in s && Preimage(Header, HeaderJson(b)) in s
    requires HeaderHash(c, a).Some? && HeaderHash(c, a) == HeaderHash(c, b)
    ensures a == b
  {
    hide Digest, CollisionFree, HeaderJson;
    DigestBinds(c, s, Header, HeaderJson(a), HeaderJson(b));
    HeaderJsonInjective(a, b);
  }

  /** A header fixes the transactions and results of its block. */
  lemma HeaderBindsBody(c: Crypto, s: set<Preimage>, a: LedgerBlock, b: LedgerBlock)
    requires CollisionFree(c, s) && Hashed(a) <= s && Hashed(b) <= s
    requires Commitments(c, a).Some? && Commitments(c, b).Some? && a.header == b.header
    ensures a == b
  {
    hide Digest, CollisionFree, HeaderHash, ResultsJson, Strings, TxJson, TxId;
    DigestBinds(c, s, Results, ResultsJson(a.results), ResultsJson(b.results));
    ResultsJsonInjective(a.results, b.results);
    forall i | 0 <= i < |a.transactions|
      ensures a.transactions[i] == b.transactions[i]
    {
      assert PairOk(c, a.header, a.transactions[i], a.results[i]);
      assert PairOk(c, b.header, b.transactions[i], b.results[i]);
      assert a.transactions[i] in a.transactions && b.transactions[i] in b.transactions;
      TxIdBinds(c, s, a.transactions[i], b.transactions[i]);
    }
  }

  /** Equal tips are the end of equal chains: down the parent hashes, block by block. */
  lemma {:induction false} SamePrefix(m: Machine, a: Chain, b: Chain, s: set<Preimage>, n: nat)
    requires Chained(m, a) && Chained(m, b) && CollisionFree(m.crypto, s)
    requires HashedBlocks(a.blocks) <= s && HashedBlocks(b.blocks) <= s
    requires n < |a.blocks| && n < |b.blocks| && a.blocks[n].header == b.blocks[n].header
    ensures a.blocks[..n + 1] == b.blocks[..n + 1]
  {
    hide CollisionFree, HashedBlocks, Hashed, Commitments, HeaderHash, StateDigest, HeaderJson;
    assert BlockAt(m, a, n) && BlockAt(m, b, n);
    BlockIsHashed(a.blocks, n);
    BlockIsHashed(b.blocks, n);
    HeaderBindsBody(m.crypto, s, a.blocks[n], b.blocks[n]);
    if n == 0 {
    } else {
      HeaderIsHashed(a.blocks, n - 1, s);
      HeaderIsHashed(b.blocks, n - 1, s);
      HeaderHashBinds(m.crypto, s, a.blocks[n - 1].header, b.blocks[n - 1].header);
      SamePrefix(m, a, b, s, n - 1);
      assert a.blocks[..n + 1] == a.blocks[..n] + [a.blocks[n]] && b.blocks[..n + 1] == b.blocks[..n] + [b.blocks[n]];
    }
  }

  lemma HeaderIsHashed(blocks: seq<LedgerBlock>, i: nat, s: set<Preimage>)
    requires i < |blocks| && HashedBlocks(blocks) <= s
    ensures Preimage(Header, HeaderJson(blocks[i].header)) in s
  {
    hide HashedBlocks, HeaderJson;
    BlockIsHashed(blocks, i);
    assert Preimage(Header, HeaderJson(blocks[i].header)) in Hashed(blocks[i]);
  }

  /** serde reads back the world it wrote. */
  ghost predicate ReadsBack(m: Machine, w: World) {
    m.readWorld(m.worldJson(w)) == Some(w)
  }

  lemma SameWorld(m: Machine, a: Chain, b: Chain, s: set<Preimage>)
    requires Chained(m, a) && Chained(m, b) && Clean(m, a) && Clean(m, b) && a.tip == b.tip
    requires CollisionFree(m.crypto, s) && HashedLedger(m, a) <= s && HashedLedger(m, b) <= s
    requires ReadsBack(m, a.world) && ReadsBack(m, b.world)
    ensures a.world == b.world
  {
    hide CollisionFree, HashedBlocks, Digest, Valid, BlockAt, LogExact;
    assert a.world.(receipts := map[]) == a.world && b.world.(receipts := map[]) == b.world;
    DigestBinds(m.crypto, s, State, m.worldJson(a.world), m.worldJson(b.world));
  }

  lemma SameGenesis(m: Machine, a: Chain, b: Chain, s: set<Preimage>)
    requires Founded(m, a) && Founded(m, b) && a.genesisHash == b.genesisHash
    requires CollisionFree(m.crypto, s) && HashedLedger(m, a) <= s && HashedLedger(m, b) <= s
    ensures a.genesis == b.genesis && a.limits == b.limits
  {
    hide CollisionFree, HashedBlocks, Digest, ManifestJson;
    DigestBinds(m.crypto, s, Manifest, ManifestJson(a.genesis), ManifestJson(b.genesis));
    ManifestJsonInjective(a.genesis, b.genesis);
  }

  /** Two ledgers with the same tip hash are the same: genesis, blocks, world and limits. */
  lemma TipHashFixesLedger(m: Machine, a: Chain, b: Chain)
    requires Sound(m, a) && Sound(m, b)
    requires CollisionFree(m.crypto, HashedLedger(m, a) + HashedLedger(m, b))
    requires ReadsBack(m, a.world) && ReadsBack(m, b.world)
    requires HeaderHash(m.crypto, a.tip) == HeaderHash(m.crypto, b.tip)
    ensures a == b
  {
    hide CollisionFree, HashedBlocks, Tiled, Counted, Clean, Founded, Commitments, HeaderHash, StateDigest;
    var s := HashedLedger(m, a) + HashedLedger(m, b);
    var i, j := |a.blocks| - 1, |b.blocks| - 1;
    assert BlockAt(m, a, i) && BlockAt(m, b, j);
    TipHashed(m, a, s);
    TipHashed(m, b, s);
    HeaderHashBinds(m.crypto, s, a.tip, b.tip);
    SamePrefix(m, a, b, s, i);
    assert a.blocks[..i + 1] == a.blocks && b.blocks[..j + 1] == b.blocks;
    SameWorld(m, a, b, s);
    SameGenesis(m, a, b, s);
  }

  lemma TipHashed(m: Machine, l: Chain, s: set<Preimage>)
    requires Chained(m, l) && HashedLedger(m, l) <= s
    ensures HashedBlocks(l.blocks) <= s
    ensures Preimage(Header, HeaderJson(l.tip)) in s && HeaderHash(m.crypto, l.tip).Some?
  {
    hide HashedBlocks, HeaderHash, StateDigest, HeaderJson;
    assert BlockAt(m, l, |l.blocks| - 1);
    HeaderIsHashed(l.blocks, |l.blocks| - 1, s);
  }

  /** Any two runs, from any two manifests, that reach one tip hash have reached one and the same ledger. */
  lemma EqualTipsEqualRuns(
    m: Machine, g: GenesisManifest, requests: seq<Request>, g': GenesisManifest, requests': seq<Request>)
    requires New(m, g).Some? && New(m, g').Some?
    requires var a, b := Run(m, New(m, g).value, requests), Run(m, New(m, g').value, requests');
      && CollisionFree(m.crypto, HashedLedger(m, a) + HashedLedger(m, b))
      && ReadsBack(m, a.world) && ReadsBack(m, b.world)
      && HeaderHash(m.crypto, a.tip) == HeaderHash(m.crypto, b.tip)
    ensures g == g' && Run(m, New(m, g).value, requests) == Run(m, New(m, g').value, requests')
  {
    hide Run, New, CollisionFree, Sound, HeaderHash, HashedLedger;
    EveryRunIsSound(m, g, requests);
    EveryRunIsSound(m, g', requests');
    TipHashFixesLedger(m, Run(m, New(m, g).value, requests), Run(m, New(m, g').value, requests'));
  }
}
