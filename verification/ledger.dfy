/** Ledger transactions, headers and blocks, and the digests that bind them (src/ledger.rs). */
module Ledger {
  import opened Common
  import opened Text
  import opened Json
  import opened JsonText
  import opened JsonLaws
  import opened Model

  datatype Domain = Sign | Tx | Manifest | Header | Transactions | Results | Events | State

  datatype LedgerTransaction = LedgerTransaction(
    version: nat, chainId: string, genesisHash: string, from: string, nonce: nat, entityId: nat, action: string,
    args: Json, signature: string)

  datatype GenesisManifest = GenesisManifest(
    version: nat, chainId: string, rulesVersion: nat, encodingVersion: nat, initialWorld: Json, executionLimits: Json)

  datatype BlockHeader = BlockHeader(
    version: nat, chainId: string, genesisHash: string, rulesVersion: nat, height: nat, parentHash: string,
    txCount: nat, transactionsDigest: string, resultsDigest: string, postStateDigest: string)

  datatype ExecutionResult = ExecutionResult(
    txId: string, from: string, nonce: nat, ok: bool, messages: seq<string>, result: Json,
    firstEventId: Option<nat>, lastEventId: Option<nat>, eventsDigest: string)

  datatype LedgerBlock = LedgerBlock(
    header: BlockHeader, transactions: seq<LedgerTransaction>, results: seq<ExecutionResult>)

  /**
   The cryptography: a domain-separated hash of canonical text, in hex; whether bytes are a
   verification key; and signature verification of a signing digest.
   */
  datatype Crypto = Crypto(
    hash: (Domain, string) -> string, isKey: string -> bool, signed: (string, string, string) -> bool)

  // ---------- records as JSON ----------

  /** A struct with the given field names, as serde writes it. */
  function Fields(names: seq<string>, values: seq<Json>): map<string, Json>
    requires |names| == |values|
  {
    if |names| == 0 then map[]
    else
      var last := |names| - 1;
      Fields(names[..last], values[..last])[names[last] := values[last]]
  }

  lemma {:induction false} FieldAt(names: seq<string>, values: seq<Json>, i: nat)
    requires |names| == |values| && Distinct(names) && i < |names|
    ensures names[i] in Fields(names, values) && Fields(names, values)[names[i]] == values[i]
  {
    var n := |names| - 1;
    if i == n {
    } else {
      assert names[..n][i] == names[i] && names[i] != names[n];
      FieldAt(names[..n], values[..n], i);
    }
  }

  /** A record's JSON determines the values of its fields. */
  lemma FieldsInjective(names: seq<string>, a: seq<Json>, b: seq<Json>)
    requires |names| == |a| == |b| && Distinct(names) && Fields(names, a) == Fields(names, b)
    ensures a == b
  {
    forall i | 0 <= i < |names|
      ensures a[i] == b[i]
    {
      FieldAt(names, a, i);
      FieldAt(names, b, i);
    }
  }

  function Strings(items: seq<string>): Json {
    Arr(seq(|items|, i requires 0 <= i < |items| => Str(items[i])))
  }

  lemma StringsInjective(a: seq<string>, b: seq<string>)
    requires Strings(a) == Strings(b)
    ensures a == b
  {
    var x, y := Strings(a).items, Strings(b).items;
    assert |x| == |a| && |y| == |b|;
    assert forall i :: 0 <= i < |a| ==> x[i] == Str(a[i]) && y[i] == Str(b[i]);
  }

  function Maybe(n: Option<nat>): Json {
    match n
    case Some(i) => Int(i)
    case None => Null
  }

  const TX_NAMES: seq<string> := [
    "protocol_version", "chain_id", "genesis_hash", "from", "nonce", "entity_id", "action", "args"]

  function TxValues(tx: LedgerTransaction): seq<Json> {
    [Int(tx.version), Str(tx.chainId), Str(tx.genesisHash), Str(tx.from), Int(tx.nonce), Int(tx.entityId),
     Str(tx.action), tx.args]
  }

  /** What is signed: every field but the signature. */
  function SigningJson(tx: LedgerTransaction): Json {
    Obj(Fields(TX_NAMES, TxValues(tx)))
  }

  function TxJson(tx: LedgerTransaction): Json {
    Obj(Fields(TX_NAMES + ["signature"], TxValues(tx) + [Str(tx.signature)]))
  }

  lemma TxJsonInjective(a: LedgerTransaction, b: LedgerTransaction)
    requires TxJson(a) == TxJson(b)
    ensures a == b
  {
    var x, y := TxValues(a) + [Str(a.signature)], TxValues(b) + [Str(b.signature)];
    FieldsInjective(TX_NAMES + ["signature"], x, y);
    assert forall i :: 0 <= i < 8 ==> TxValues(a)[i] == x[i] && TxValues(b)[i] == y[i];
    assert x[8] == Str(a.signature) && y[8] == Str(b.signature);
    assert TxValues(a) == TxValues(b);
    assert TxValues(a)[0] == Int(a.version) && TxValues(b)[0] == Int(b.version);
  }

  const MANIFEST_NAMES: seq<string> := [
    "protocol_version", "chain_id", "runtime_rules_version", "encoding_version", "initial_world", "execution_limits"]

  function ManifestValues(m: GenesisManifest): seq<Json> {
    [Int(m.version), Str(m.chainId), Int(m.rulesVersion), Int(m.encodingVersion), m.initialWorld, m.executionLimits]
  }

  function ManifestJson(m: GenesisManifest): Json {
    Obj(Fields(MANIFEST_NAMES, ManifestValues(m)))
  }

  lemma ManifestJsonInjective(a: GenesisManifest, b: GenesisManifest)
    requires ManifestJson(a) == ManifestJson(b)
    ensures a == b
  {
    FieldsInjective(MANIFEST_NAMES, ManifestValues(a), ManifestValues(b));
    assert ManifestValues(a)[0] == Int(a.version);
  }

  const HEADER_NAMES: seq<string> := [
    "protocol_version", "chain_id", "genesis_hash", "runtime_rules_version", "height", "parent_hash", "tx_count",
    "transactions_digest", "results_digest", "post_state_digest"]

  function HeaderValues(h: BlockHeader): seq<Json> {
    [Int(h.version), Str(h.chainId), Str(h.genesisHash), Int(h.rulesVersion), Int(h.height), Str(h.parentHash),
     Int(h.txCount), Str(h.transactionsDigest), Str(h.resultsDigest), Str(h.postStateDigest)]
  }

  function HeaderJson(h: BlockHeader): Json {
    Obj(Fields(HEADER_NAMES, HeaderValues(h)))
  }

  lemma HeaderJsonInjective(a: BlockHeader, b: BlockHeader)
    requires HeaderJson(a) == HeaderJson(b)
    ensures a == b
  {
    FieldsInjective(HEADER_NAMES, HeaderValues(a), HeaderValues(b));
    assert HeaderValues(a)[0] == Int(a.version);
  }

  const RESULT_NAMES: seq<string> := [
    "tx_id", "from", "nonce", "ok", "messages", "result", "first_event_id", "last_event_id", "events_digest"]

  function ResultValues(r: ExecutionResult): seq<Json> {
    [Str(r.txId), Str(r.from), Int(r.nonce), Bool(r.ok), Strings(r.messages), r.result, Maybe(r.firstEventId),
     Maybe(r.lastEventId), Str(r.eventsDigest)]
  }

  function ResultJson(r: ExecutionResult): Json {
    Obj(Fields(RESULT_NAMES, ResultValues(r)))
  }

  lemma ResultJsonInjective(a: ExecutionResult, b: ExecutionResult)
    requires ResultJson(a) == ResultJson(b)
    ensures a == b
  {
    FieldsInjective(RESULT_NAMES, ResultValues(a), ResultValues(b));
    assert ResultValues(a)[0] == Str(a.txId);
    StringsInjective(a.messages, b.messages);
  }

  function TxsJson(txs: seq<LedgerTransaction>): Json {
    Arr(seq(|txs|, i requires 0 <= i < |txs| => TxJson(txs[i])))
  }

  function ResultsJson(results: seq<ExecutionResult>): Json {
    Arr(seq(|results|, i requires 0 <= i < |results| => ResultJson(results[i])))
  }

  const BLOCK_NAMES: seq<string> := ["header", "transactions", "execution_results"]

  function BlockJson(b: LedgerBlock): Json {
    Obj(Fields(BLOCK_NAMES, [HeaderJson(b.header), TxsJson(b.transactions), ResultsJson(b.results)]))
  }

  lemma BlockJsonInjective(a: LedgerBlock, b: LedgerBlock)
    requires BlockJson(a) == BlockJson(b)
    ensures a == b
  {
    var x := [HeaderJson(a.header), TxsJson(a.transactions), ResultsJson(a.results)];
    var y := [HeaderJson(b.header), TxsJson(b.transactions), ResultsJson(b.results)];
    FieldsInjective(BLOCK_NAMES, x, y);
    assert x[0] == y[0] && x[1] == y[1] && x[2] == y[2];
    HeaderJsonInjective(a.header, b.header);
    TxsJsonInjective(a.transactions, b.transactions);
    ResultsJsonInjective(a.results, b.results);
  }

  lemma TxsJsonInjective(a: seq<LedgerTransaction>, b: seq<LedgerTransaction>)
    requires TxsJson(a) == TxsJson(b)
    ensures a == b
  {
    var x, y := TxsJson(a).items, TxsJson(b).items;
    assert |x| == |a| && |y| == |b|;
    forall i | 0 <= i < |a|
      ensures a[i] == b[i]
    {
      assert x[i] == TxJson(a[i]) && y[i] == TxJson(b[i]);
      TxJsonInjective(a[i], b[i]);
    }
  }

  lemma ResultsJsonInjective(a: seq<ExecutionResult>, b: seq<ExecutionResult>)
    requires ResultsJson(a) == ResultsJson(b)
    ensures a == b
  {
    var x, y := ResultsJson(a).items, ResultsJson(b).items;
    assert |x| == |a| && |y| == |b|;
    forall i | 0 <= i < |a|
      ensures a[i] == b[i]
    {
      assert x[i] == ResultJson(a[i]) && y[i] == ResultJson(b[i]);
      ResultJsonInjective(a[i], b[i]);
    }
  }

  const EVENT_NAMES: seq<string> := ["id", "head", "kind", "entity_id", "data"]

  function EventsJson(events: seq<Event>): Json {
    Arr(seq(|events|, i requires 0 <= i < |events| =>
      Obj(Fields(EVENT_NAMES, [Int(events[i].id), Int(events[i].head), Str(events[i].kind), Maybe(events[i].entityId),
                               events[i].data]))))
  }

  // ---------- digests ----------

  ghost function Digest(c: Crypto, domain: Domain, v: Json): Option<string> {
    match Canonical(v)
    case None => None
    case Some(text) => Some(c.hash(domain, text))
  }

  /** `hash_hex`: that many bytes in lowercase hex. */
  predicate IsLowerHex(s: string, bytes: nat) {
    |s| == 2 * bytes && forall i :: 0 <= i < |s| ==> IsDigit(s[i]) || 'a' <= s[i] <= 'f'
  }

  /** `"0".repeat(n)`. */
  function Zeros(n: nat): (s: string)
    ensures |s| == n && forall i :: 0 <= i < |s| ==> s[i] == '0'
  {
    if n == 0 then "" else Zeros(n - 1) + "0"
  }

  const ZERO_HASH := Zeros(64)

  ghost function SigningDigest(c: Crypto, tx: LedgerTransaction): Option<string> {
    if tx.version == 1 && tx.chainId != "" && tx.from != "" && tx.action != "" && IsLowerHex(tx.genesisHash, 32)
    then Digest(c, Sign, SigningJson(tx))
    else None
  }

  ghost function TxId(c: Crypto, tx: LedgerTransaction): Option<string> {
    if SigningDigest(c, tx).Some? && IsLowerHex(tx.signature, 64) then Digest(c, Tx, TxJson(tx)) else None
  }

  ghost predicate Verifies(c: Crypto, tx: LedgerTransaction, key: string, chainId: string, genesisHash: string) {
    && tx.chainId == chainId && tx.genesisHash == genesisHash
    && IsLowerHex(key, 32) && IsLowerHex(tx.signature, 64) && c.isKey(key)
    && SigningDigest(c, tx).Some? && c.signed(key, SigningDigest(c, tx).value, tx.signature)
  }

  ghost function ManifestHash(c: Crypto, m: GenesisManifest): Option<string> {
    if m.version == 1 && m.encodingVersion == 1 && m.rulesVersion == 1 && m.chainId != ""
    then Digest(c, Manifest, ManifestJson(m))
    else None
  }

  ghost function HeaderHash(c: Crypto, h: BlockHeader): Option<string> {
    if && h.version == 1 && h.rulesVersion == 1 && h.chainId != ""
       && (if h.height == 0 then h.txCount == 0 else h.txCount == 1)
       && IsLowerHex(h.genesisHash, 32) && IsLowerHex(h.parentHash, 32) && IsLowerHex(h.transactionsDigest, 32)
       && IsLowerHex(h.resultsDigest, 32) && IsLowerHex(h.postStateDigest, 32)
       && (h.height == 0 ==> h.parentHash == ZERO_HASH)
    then Digest(c, Header, HeaderJson(h))
    else None
  }

  // ---------- block commitments ----------

  /** One transaction against its result and the header. */
  ghost predicate PairOk(c: Crypto, h: BlockHeader, tx: LedgerTransaction, r: ExecutionResult) {
    && tx.chainId == h.chainId && tx.genesisHash == h.genesisHash
    && r.ok && Some(r.txId) == TxId(c, tx) && r.from == tx.from && r.nonce == tx.nonce
    && IsLowerHex(r.eventsDigest, 32)
    && match (r.firstEventId, r.lastEventId)
       case (None, None) => true
       case (Some(first), Some(last)) => 0 < first <= last
       case _ => false
  }

  function Ids(results: seq<ExecutionResult>): seq<string> {
    seq(|results|, i requires 0 <= i < |results| => results[i].txId)
  }

  /** `validate_commitments`: the header hash of a block whose body matches its header. */
  ghost function Commitments(c: Crypto, b: LedgerBlock): Option<string> {
    if && HeaderHash(c, b.header).Some?
       && |b.transactions| == b.header.txCount && |b.results| == |b.transactions|
       && (forall i :: 0 <= i < |b.transactions| ==> PairOk(c, b.header, b.transactions[i], b.results[i]))
       && Digest(c, Transactions, Strings(Ids(b.results))) == Some(b.header.transactionsDigest)
       && Digest(c, Results, ResultsJson(b.results)) == Some(b.header.resultsDigest)
    then HeaderHash(c, b.header)
    else None
  }

  // ---------- what equal digests bind ----------

  /** A value that was hashed in a domain. */
  datatype Preimage = Preimage(domain: Domain, value: Json)

  ghost predicate SameHash(c: Crypto, x: Preimage, y: Preimage) {
    && x.domain == y.domain
    && Digest(c, x.domain, x.value).Some? && Digest(c, x.domain, x.value) == Digest(c, y.domain, y.value)
  }

  /** No two different hashed values of `s` share a hash within one domain. */
  ghost predicate CollisionFree(c: Crypto, s: set<Preimage>) {
    forall x, y :: x in s && y in s && SameHash(c, x, y) ==> Canonical(x.value) == Canonical(y.value)
  }

  lemma DigestBinds(c: Crypto, s: set<Preimage>, domain: Domain, a: Json, b: Json)
    requires CollisionFree(c, s) && Preimage(domain, a) in s && Preimage(domain, b) in s
    requires Digest(c, domain, a).Some? && Digest(c, domain, a) == Digest(c, domain, b)
    ensures a == b
  {
    CanonicalInjective(a, b);
  }
}
