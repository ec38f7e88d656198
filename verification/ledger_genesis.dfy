/**
 The theorems about ledgers speak of something: a manifest that opens a ledger, and signed
 transactions that it proposes and applies, or proposes and cannot apply. Small records stay
 far below the size limit.
 */
module LedgerGenesis {
  import opened Common
  import opened Text
  import opened Json
  import opened JsonText
  import opened JsonLaws
  import opened QuestGraph
  import opened Model
  import opened HostOps
  import opened Execution
  import opened History
  import opened CommitValidity
  import opened Ledger
  import opened LedgerChain
  import opened LedgerRuns
  import opened LedgerLaws

  // ---------- how long canonical text can be ----------

  lemma {:induction false} Utf8Length(s: string)
    ensures |Utf8(s)| <= 4 * |s|
  {
    if s == [] {
    } else {
      Utf8Length(s[1..]);
    }
  }

  lemma {:induction false} EscapeLength(s: string)
    ensures |Escape(s)| <= 6 * |s|
  {
    if s == "" {
    } else {
      EscapeLength(s[1..]);
    }
  }

  lemma OneMore(bound: nat, n: nat)
    ensures bound * (n + 1) == bound * n + bound
  {
  }

  lemma {:induction false} MembersLength(v: Json, keys: seq<string>, bound: nat)
    requires v.Obj? && Elements(keys) <= v.fields.Keys
    requires forall k :: k in v.fields ==> |Quote(k)| + |Print(v.fields[k])| + 2 <= bound
    ensures |PrintFields(v, keys)| <= bound * |keys|
    decreases |keys|
  {
    hide Print, Quote;
    if keys == [] {
    } else {
      assert keys[0] in Elements(keys);
      assert forall k :: k in keys[1..] ==> k in Elements(keys);
      MembersLength(v, keys[1..], bound);
      OneMore(bound, |keys| - 1);
    }
  }

  /** A record prints in at most so much per field. */
  lemma RecordLength(names: seq<string>, values: seq<Json>, bound: nat)
    requires |names| == |values| && Distinct(names)
    requires forall i :: 0 <= i < |names| ==> |Quote(names[i])| + |Print(values[i])| + 2 <= bound
    ensures |Print(Obj(Fields(names, values)))| <= bound * |names| + 2
  {
    var v := Obj(Fields(names, values));
    var keys := SortedKeys(v.fields.Keys);
    FieldNames(names, values);
    forall k | k in v.fields
      ensures |Quote(k)| + |Print(v.fields[k])| + 2 <= bound
    {
      var i :| 0 <= i < |names| && names[i] == k;
      FieldAt(names, values, i);
    }
    KeyCount(names, values, keys);
    Opened(v, keys);
    hide Print, Quote;
    MembersLength(v, keys, bound);
  }

  lemma KeyCount(names: seq<string>, values: seq<Json>, keys: seq<string>)
    requires |names| == |values| && Distinct(names) && keys == SortedKeys(Fields(names, values).Keys)
    ensures |keys| == |names|
  {
    FieldNames(names, values);
    assert Fields(names, values).Keys == Elements(names);
    AscendingDistinct(keys);
    DistinctCount(names);
    DistinctCount(keys);
  }

  lemma Opened(v: Json, keys: seq<string>)
    requires v.Obj? && keys == SortedKeys(v.fields.Keys)
    ensures |Print(v)| == |PrintFields(v, keys)| + 2
  {
  }

  lemma QuoteLength(s: string)
    ensures |Quote(s)| <= 6 * |s| + 2
  {
    EscapeLength(s);
  }

  /** Strings of a hash's length, small numbers and short lists print in at most 1,000 characters. */
  predicate Small(v: Json) {
    match v
    case Null => true
    case Bool(b) => true
    case Int(n) => 0 <= n < 10
    case Str(s) => |s| <= 128
    case _ => false
  }

  lemma SmallPrints(v: Json)
    requires Small(v)
    ensures Fits(v, 1) && |Print(v)| <= 1_000
  {
    if v.Str? {
      QuoteLength(v.s);
    }
  }

  /** A record of short names and fields of at most `bound` characters. */
  lemma RecordPrints(names: seq<string>, values: seq<Json>, bound: nat)
    requires |names| == |values| && Distinct(names)
    requires forall i :: 0 <= i < |names| ==> |names[i]| <= 30 && |Print(values[i])| <= bound
    ensures |Print(Obj(Fields(names, values)))| <= (bound + 184) * |names| + 2
  {
    hide Print, Quote, Fields;
    forall i | 0 <= i < |names|
      ensures |Quote(names[i])| + |Print(values[i])| + 2 <= bound + 184
    {
      QuoteLength(names[i]);
    }
    RecordLength(names, values, bound + 184);
  }

  lemma ShortIsCanonical(v: Json)
    requires Fits(v, 0) && |Print(v)| <= 200_000
    ensures Canonical(v).Some?
  {
    hide Fits, Print, Utf8;
    Utf8Length(Print(v));
  }

  /** A record of at most ten fields of at most 1,000 characters has a canonical text. */
  lemma SmallRecordIsCanonical(names: seq<string>, values: seq<Json>)
    requires |names| == |values| <= 10 && Distinct(names)
    requires forall i :: 0 <= i < |names| ==> |names[i]| <= 30 && Fits(values[i], 1) && |Print(values[i])| <= 1_000
    ensures Canonical(Obj(Fields(names, values))).Some? && |Print(Obj(Fields(names, values)))| <= 12_000
  {
    hide Print, Fits, Fields, Utf8;
    RecordPrints(names, values, 1_000);
    RecordFits(names, values, 0);
    ShortIsCanonical(Obj(Fields(names, values)));
  }

  // ---------- a ledger ----------

  /** A machine whose hash is constant, whose worlds all read as the same one, and whose scripts do nothing. */
  function SimpleMachine(): Machine {
    Machine(
      Crypto((domain, text) => ZERO_HASH, key => true, (key, digest, signature) => true),
      source => "", w => "", w => Null, json => Some(OneActorWorld()),
      (limits, w, id: nat, source, action, args) => Finished([], [], Some(Null)))
  }

  /** One account with a key, its actor, and the actor's contract. */
  function OneActorWorld(): World {
    World(
      map["a" := Account("a", Some(ZERO_HASH), 0, 0)],
      map[1 := Entity(1, Actor, "a", None, Some("k"), map[])],
      map["k" := Contract("k", 1, "", "", Published)],
      map[], map[], map[], map[], [], 1, 2, 0)
  }

  function SmallManifest(): GenesisManifest {
    GenesisManifest(1, "c", 1, 1, Null, Arr([Int(1_000), Int(1_048_576)]))
  }

  lemma OneActorWorldValid(blake3: string -> string)
    requires blake3("") == ""
    ensures Valid(OneActorWorld(), blake3)
  {
    var w := OneActorWorld();
    ZeroHashIsHex();
    hide Zeros;
    assert ContractKey("k", 1) == "k";
    assert Placed(w.entities, 1);
    OrderedIsAcyclic(Prerequisites(map[]), []);
  }

  lemma ManifestIsCanonical()
    ensures Canonical(ManifestJson(SmallManifest())).Some?
  {
    var values := ManifestValues(SmallManifest());
    hide Print, Fits;
    forall i | 0 <= i < |values|
      ensures Fits(values[i], 1) && |Print(values[i])| <= 1_000
    {
      if i < 5 {
        SmallPrints(values[i]);
      } else {
        LimitsPrint();
      }
    }
    SmallRecordIsCanonical(MANIFEST_NAMES, values);
  }

  lemma LimitsPrint()
    ensures Fits(Arr([Int(1_000), Int(1_048_576)]), 1) && |Print(Arr([Int(1_000), Int(1_048_576)]))| <= 1_000
  {
    var items := [Int(1_000), Int(1_048_576)];
    DecimalLength(1_000, 4);
    DecimalLength(1_048_576, 7);
    assert items[1..] == [Int(1_048_576)];
    assert PrintItems(items) == Print(items[0]) + "," + PrintItems(items[1..]);
  }

  function Power(digits: nat): nat {
    if digits == 0 then 1 else 10 * Power(digits - 1)
  }

  lemma {:induction false} DecimalLength(n: nat, digits: nat)
    requires digits > 0 && n < Power(digits)
    ensures |Decimal(n)| <= digits
    decreases digits
  {
    if n < 10 {
    } else {
      DecimalLength(n / 10, digits - 1);
    }
  }

  lemma ZeroHashIsHex()
    ensures IsLowerHex(ZERO_HASH, 32)
  {
    hide Zeros;
  }

  lemma EmptyListsPrint()
    ensures Canonical(Null).Some? && Canonical(Arr([])).Some?
  {
    Utf8Length("null");
    Utf8Length("[]");
    assert Print(Arr([])) == "[]";
  }

  lemma HeaderIsCanonical(h: BlockHeader)
    requires h.version < 10 && h.rulesVersion < 10 && h.height < 10 && h.txCount < 10 && |h.chainId| <= 64
    requires |h.genesisHash| == |h.parentHash| == |h.transactionsDigest| == 64
    requires |h.resultsDigest| == |h.postStateDigest| == 64
    ensures Canonical(HeaderJson(h)).Some? && |Print(HeaderJson(h))| <= 12_000
  {
    var values := HeaderValues(h);
    hide Print, Fits;
    forall i | 0 <= i < |values|
      ensures Fits(values[i], 1) && |Print(values[i])| <= 1_000
    {
      SmallPrints(values[i]);
    }
    SmallRecordIsCanonical(HEADER_NAMES, values);
  }

  /** Every digest is the same string. */
  ghost predicate Constant(c: Crypto, z: string) {
    forall domain, text :: c.hash(domain, text) == z
  }

  lemma ConstantDigest(c: Crypto, z: string, domain: Domain, v: Json)
    requires Constant(c, z) && Canonical(v).Some?
    ensures Digest(c, domain, v) == Some(z)
  {
    hide Canonical;
  }

  lemma HeaderHashed(c: Crypto, z: string, h: BlockHeader)
    requires Constant(c, z) && Canonical(HeaderJson(h)).Some? && h.height <= 1 && h.txCount == h.height
    requires h.version == 1 && h.rulesVersion == 1 && h.chainId != ""
    requires IsLowerHex(h.genesisHash, 32) && h.parentHash == ZERO_HASH && IsLowerHex(ZERO_HASH, 32)
    requires IsLowerHex(h.transactionsDigest, 32) && IsLowerHex(h.resultsDigest, 32)
    requires IsLowerHex(h.postStateDigest, 32)
    ensures HeaderHash(c, h) == Some(z)
  {
    hide Canonical, HeaderJson, IsLowerHex, Digest;
    ConstantDigest(c, z, Header, HeaderJson(h));
  }

  lemma EmptyBlockCommitted(c: Crypto, z: string, h: BlockHeader)
    requires Constant(c, z) && HeaderHash(c, h).Some? && h.txCount == 0
    requires h.transactionsDigest == z && h.resultsDigest == z
    ensures Commitments(c, LedgerBlock(h, [], [])).Some?
  {
    hide Digest, HeaderHash, Canonical, Constant, PairOk;
    EmptyLists();
    EmptyListsPrint();
    ConstantDigest(c, z, Transactions, Arr([]));
    ConstantDigest(c, z, Results, Arr([]));
  }

  lemma EmptyLists()
    ensures Strings(Ids([])) == Arr([]) && ResultsJson([]) == Arr([])
  {
  }

  lemma OpensWhen(m: Machine, g: GenesisManifest, hash: string, w: World, limits: Limits, h: BlockHeader)
    requires ManifestHash(m.crypto, g) == Some(hash) && m.readWorld(g.initialWorld) == Some(w)
    requires ReadLimits(g.executionLimits) == Some(limits) && LimitsOk(limits) && GenesisWorld(m, w)
    requires GenesisHeader(m, g, hash, w) == Some(h) && Commitments(m.crypto, LedgerBlock(h, [], [])).Some?
    ensures New(m, g) == Some(Chain(w, g, hash, h, [LedgerBlock(h, [], [])], limits))
  {
    hide ManifestHash, ReadLimits, GenesisWorld, GenesisHeader, Commitments, LimitsOk;
  }

  lemma OneActorGenesis(m: Machine)
    requires m.blake3("") == "" && m.crypto.isKey(ZERO_HASH)
    ensures GenesisWorld(m, OneActorWorld())
  {
    ZeroHashIsHex();
    OneActorWorldValid(m.blake3);
    hide Valid, IsLowerHex, Zeros;
  }

  /** What the example relies on of its machine. */
  ghost predicate Simple(m: Machine) {
    && Constant(m.crypto, ZERO_HASH)
    && (forall key :: m.crypto.isKey(key))
    && (forall key, digest, signature :: m.crypto.signed(key, digest, signature))
    && m.blake3("") == ""
    && (forall w :: m.worldJson(w) == Null)
    && m.readWorld(Null) == Some(OneActorWorld())
    && forall limits, w, id: nat, source, action, args ::
      m.script(limits, w, id, source, action, args) == Finished([], [], Some(Null))
  }

  lemma SimpleMachineIsSimple()
    ensures Simple(SimpleMachine())
  {
    hide Zeros, OneActorWorld;
  }

  lemma StateIsNull(m: Machine, w: World)
    requires Simple(m)
    ensures StateDigest(m, w) == Some(ZERO_HASH)
  {
    hide Zeros, OneActorWorld;
    EmptyListsPrint();
    ConstantDigest(m.crypto, ZERO_HASH, State, Null);
  }

  lemma InitialHeader(m: Machine, g: GenesisManifest, z: string, w: World, h: BlockHeader)
    requires Constant(m.crypto, z) && StateDigest(m, w) == Some(z)
    requires h == BlockHeader(1, g.chainId, z, 1, 0, ZERO_HASH, 0, z, z, z)
    ensures GenesisHeader(m, g, z, w) == Some(h)
  {
    EmptyListsPrint();
    ConstantDigest(m.crypto, z, Transactions, Arr([]));
    ConstantDigest(m.crypto, z, Results, Arr([]));
    hide Digest, StateDigest, Zeros;
  }

  lemma ManifestHashed(c: Crypto, z: string)
    requires Constant(c, z)
    ensures ManifestHash(c, SmallManifest()) == Some(z)
  {
    ManifestIsCanonical();
    ConstantDigest(c, z, Manifest, ManifestJson(SmallManifest()));
    hide Digest, ManifestJson;
  }

  lemma ManifestLimits()
    ensures ReadLimits(SmallManifest().executionLimits) == Some(Limits(1_000, 1_048_576))
    ensures LimitsOk(Limits(1_000, 1_048_576)) && SmallManifest().initialWorld == Null && SmallManifest().chainId == "c"
  {
  }

  /** The header of height `height` in the example. */
  function HeaderAt(height: nat): BlockHeader {
    BlockHeader(1, "c", ZERO_HASH, 1, height, ZERO_HASH, height, ZERO_HASH, ZERO_HASH, ZERO_HASH)
  }

  function FirstChain(): Chain {
    Chain(OneActorWorld(), SmallManifest(), ZERO_HASH, HeaderAt(0), [LedgerBlock(HeaderAt(0), [], [])],
          Limits(1_000, 1_048_576))
  }

  lemma HeaderAtHashed(c: Crypto, height: nat)
    requires Constant(c, ZERO_HASH) && height <= 1
    ensures HeaderHash(c, HeaderAt(height)) == Some(ZERO_HASH)
    ensures Canonical(HeaderJson(HeaderAt(height))).Some? && |Print(HeaderJson(HeaderAt(height)))| <= 12_000
  {
    ZeroHashIsHex();
    HeaderIsCanonical(HeaderAt(height));
    hide Zeros, Canonical, IsLowerHex, HeaderJson, HeaderHash, Print, Constant;
    HeaderHashed(c, ZERO_HASH, HeaderAt(height));
  }

  lemma SimpleOpens(m: Machine)
    requires Simple(m)
    ensures New(m, SmallManifest()) == Some(FirstChain())
  {
    var g, z, w, h := SmallManifest(), ZERO_HASH, OneActorWorld(), HeaderAt(0);
    ManifestLimits();
    OneActorGenesis(m);
    hide SmallManifest, OneActorWorld, Zeros, Constant, Canonical, Commitments, GenesisWorld, GenesisHeader,
      ManifestHash, HeaderHash, HeaderJson, IsLowerHex, New, ReadLimits, StateDigest;
    ManifestHashed(m.crypto, z);
    StateIsNull(m, w);
    InitialHeader(m, g, z, w, h);
    HeaderAtHashed(m.crypto, 0);
    EmptyBlockCommitted(m.crypto, z, h);
    OpensWhen(m, g, z, w, Limits(1_000, 1_048_576), h);
  }

  /** A manifest that opens a ledger. */
  lemma SomeLedgerOpens()
    ensures New(SimpleMachine(), SmallManifest()) == Some(FirstChain())
    ensures Sound(SimpleMachine(), FirstChain())
  {
    SimpleMachineIsSimple();
    hide SimpleMachine, SmallManifest, OneActorWorld, Zeros, New, Sound, Constant, Simple, FirstChain;
    SimpleOpens(SimpleMachine());
    NewIsSound(SimpleMachine(), SmallManifest());
  }

  // ---------- a transaction ----------

  /** A request of the account's actor whose arguments nest that deep. */
  function NestedRequest(levels: nat): LedgerTransaction {
    LedgerTransaction(1, "c", ZERO_HASH, "a", 0, 1, "x", Nested(levels), Zeros(128))
  }

  lemma {:induction false} NestedPrints(levels: nat)
    ensures |Print(Nested(levels))| == 4 + 2 * levels
  {
    if levels == 0 {
    } else {
      NestedPrints(levels - 1);
      SingletonPrints(Nested(levels - 1));
    }
  }

  lemma SingletonPrints(v: Json)
    ensures |Print(Arr([v]))| == |Print(v)| + 2
  {
    assert PrintItems([v]) == Print(v);
  }

  lemma TextsPrint(tx: LedgerTransaction, i: nat)
    requires i < 8 && i != 7
    requires tx.version < 10 && tx.nonce < 10 && tx.entityId < 10
    requires |tx.chainId| <= 64 && |tx.genesisHash| <= 64 && |tx.from| <= 64 && |tx.action| <= 64
    ensures Fits(TxValues(tx)[i], 1) && |Print(TxValues(tx)[i])| <= 1_000
  {
    hide Fits, Print;
    SmallPrints(TxValues(tx)[i]);
  }

  lemma SmallTxIsCanonical(tx: LedgerTransaction)
    requires tx.version < 10 && tx.nonce < 10 && tx.entityId < 10 && |tx.signature| == 128
    requires |tx.chainId| <= 64 && |tx.genesisHash| <= 64 && |tx.from| <= 64 && |tx.action| <= 64
    requires Fits(tx.args, 1) && |Print(tx.args)| <= 1_000
    ensures Canonical(SigningJson(tx)).Some?
    ensures Canonical(TxJson(tx)).Some? && |Print(TxJson(tx))| <= 12_000
  {
    hide Fits, Print, Canonical, Fields;
    var values := TxValues(tx);
    forall i | 0 <= i < |values|
      ensures Fits(values[i], 1) && |Print(values[i])| <= 1_000
    {
      if i != 7 {
        TextsPrint(tx, i);
      }
    }
    SmallRecordIsCanonical(TX_NAMES, values);
    SmallPrints(Str(tx.signature));
    SmallRecordIsCanonical(TX_NAMES + ["signature"], values + [Str(tx.signature)]);
  }

  lemma RequestIsCanonical(levels: nat)
    requires levels <= 31
    ensures Canonical(SigningJson(NestedRequest(levels))).Some?
    ensures Canonical(TxJson(NestedRequest(levels))).Some? && |Print(TxJson(NestedRequest(levels)))| <= 12_000
  {
    hide Zeros, Nested, Canonical, SigningJson, TxJson, Print;
    NestedFits(levels, 1);
    NestedPrints(levels);
    SmallTxIsCanonical(NestedRequest(levels));
  }

  lemma RequestDigests(c: Crypto, levels: nat)
    requires Constant(c, ZERO_HASH) && levels <= 31
    ensures SigningDigest(c, NestedRequest(levels)) == Some(ZERO_HASH)
    ensures TxId(c, NestedRequest(levels)) == Some(ZERO_HASH)
  {
    ZeroHashIsHex();
    SignatureIsHex();
    RequestIsCanonical(levels);
    hide Zeros, Nested, Canonical, SigningJson, TxJson, Print, Digest, IsLowerHex, Constant;
    ConstantDigest(c, ZERO_HASH, Sign, SigningJson(NestedRequest(levels)));
    ConstantDigest(c, ZERO_HASH, Tx, TxJson(NestedRequest(levels)));
  }

  lemma SignatureIsHex()
    ensures IsLowerHex(Zeros(128), 64)
  {
    hide Zeros;
  }

  lemma RequestVerifies(m: Machine, levels: nat)
    requires Simple(m) && levels <= 31
    ensures Verifies(m.crypto, NestedRequest(levels), ZERO_HASH, "c", ZERO_HASH)
  {
    ZeroHashIsHex();
    SignatureIsHex();
    RequestDigests(m.crypto, levels);
    hide Zeros, Nested, SigningDigest, IsLowerHex, Constant, OneActorWorld;
  }

  lemma RequestIsAdmitted(m: Machine, levels: nat)
    requires Simple(m) && levels <= 31
    ensures Admits(m, FirstChain(), NestedRequest(levels))
  {
    ManifestLimits();
    RequestDigests(m.crypto, levels);
    RequestVerifies(m, levels);
    hide Zeros, Nested, SmallManifest, SigningDigest, TxId, Constant, Verifies, Simple;
  }

  // ---------- its execution ----------

  const COMMAND_EVENT: Event := Event(1, 1, COMMAND_EXECUTED, Some(1), Obj(map["action" := Str("x")]))

  const LEDGER_EVENT: Event := Event(2, 1, LEDGER_EXECUTED, Some(1), TxData(ZERO_HASH, "a", 0))

  lemma NothingToLog(w: World, id: nat, action: string)
    ensures Conclude(w, w, id, action) ==
      Append(Headed(w), COMMAND_EXECUTED, Some(id), Obj(map["action" := Str(action)]))
  {
    hide Append;
    assert ChangedIds(w, Headed(w)) == {} && ChangedProgress(w, Headed(w)) == {};
  }

  lemma ExecutesSimply(m: Machine, limits: Limits, w: World, id: nat, action: string, args: Json)
    requires Simple(m) && ContractSource(w, id).Some?
    ensures var done := Execute(Lua(m, limits), w, id, action, args, true);
      && done.world == Conclude(w, w, id, action)
      && done.receipt.Some? && done.receipt.value.messages == [] && done.receipt.value.result == Null
  {
    hide Conclude, Zeros, OneActorWorld, Constant;
    assert PerformAll(w, id, []) == w;
  }

  function AfterRequest(): World {
    var w := OneActorWorld();
    w.(accounts := map["a" := Account("a", Some(ZERO_HASH), 1, 0)], head := 1, nextEventId := 3,
       events := [COMMAND_EVENT, LEDGER_EVENT])
  }

  lemma AfterRequestSteps(tx: LedgerTransaction)
    requires tx.from == "a" && tx.nonce == 0 && tx.entityId == 1 && tx.action == "x"
    ensures var done := Conclude(OneActorWorld(), OneActorWorld(), 1, "x");
      && "a" in done.accounts && done.nextEventId == 2
      && Append(SpendNonce(done, tx), LEDGER_EXECUTED, Some(1), TxData(ZERO_HASH, "a", 0)) == AfterRequest()
  {
    hide Zeros, Conclude;
    var w := OneActorWorld();
    NothingToLog(w, 1, "x");
    var done := Append(Headed(w), COMMAND_EXECUTED, Some(1), Obj(map["action" := Str("x")]));
    assert done.events == [COMMAND_EVENT];
    assert [COMMAND_EVENT] + [LEDGER_EVENT] == [COMMAND_EVENT, LEDGER_EVENT];
  }

  /** A spent nonce and an event of a kind that nothing is asked of. */
  lemma SpentIsValid(w: World, tx: LedgerTransaction, data: Json, blake3: string -> string)
    requires Valid(w, blake3) && tx.from in w.accounts
    ensures Valid(Append(SpendNonce(w, tx), LEDGER_EXECUTED, Some(tx.entityId), data), blake3)
  {
    var spent := SpendNonce(w, tx);
    assert Valid(spent, blake3) by {
      hide ContractsOk, ProgressOk, LocationsOk, QuestsOk, InventoriesOk, EventsOk;
    }
    LedgerKind();
    hide Valid;
    AppendValidIff(spent, LEDGER_EXECUTED, Some(tx.entityId), data, blake3);
  }

  lemma LedgerKind()
    ensures LEDGER_EXECUTED !in {"", ENTITY_CHANGED, PROGRESS_CHANGED, COMMAND_EXECUTED, TX_EXECUTED}
  {
    assert LEDGER_EXECUTED[0] == 'l';
    assert ENTITY_CHANGED[0] == 'e' && PROGRESS_CHANGED[0] == 'q';
    assert COMMAND_EXECUTED[0] == 'c' && TX_EXECUTED[0] == 't';
  }

  lemma AfterRequestValid(tx: LedgerTransaction, blake3: string -> string)
    requires blake3("") == "" && tx.from == "a" && tx.nonce == 0 && tx.entityId == 1 && tx.action == "x"
    ensures Valid(AfterRequest(), blake3)
  {
    OneActorWorldValid(blake3);
    AfterRequestSteps(tx);
    hide Valid, Conclude, OneActorWorld, AfterRequest, Zeros;
    ConcludeValidIff(OneActorWorld(), OneActorWorld(), 1, "x", blake3);
    SpentIsValid(Conclude(OneActorWorld(), OneActorWorld(), 1, "x"), tx, TxData(ZERO_HASH, "a", 0), blake3);
  }

  lemma PostStateIs(m: Machine, l: Chain, tx: LedgerTransaction, id: string, run: World, after: World)
    requires Admits(m, l, tx) && TxId(m.crypto, tx) == Some(id)
    requires var done := Execute(Lua(m, l.limits), l.world, tx.entityId, tx.action, tx.args, true);
      done.world == run && done.receipt.Some?
    requires tx.from in run.accounts && tx.nonce < MAX_U64 && run.nextEventId < MAX_U64
    requires after == Append(SpendNonce(run, tx), LEDGER_EXECUTED, Some(tx.entityId), TxData(id, tx.from, tx.nonce))
    requires Valid(after, m.blake3)
    ensures PostState(m, l, tx) ==
      Some((after, Execute(Lua(m, l.limits), l.world, tx.entityId, tx.action, tx.args, true).receipt.value))
  {
    hide Valid, Execute, TxId, Append, SpendNonce, TxData, Admits;
  }

  lemma RequestRuns(m: Machine, levels: nat)
    requires Simple(m) && levels <= 31
    ensures var post := PostState(m, FirstChain(), NestedRequest(levels));
      && post.Some? && post.value.0 == AfterRequest()
      && post.value.1.messages == [] && post.value.1.result == Null
  {
    var tx, w := NestedRequest(levels), OneActorWorld();
    assert ContractSource(w, 1).Some?;
    hide Valid, Conclude, Admits, Execute, Zeros, Simple, Nested, TxId, Append, SpendNonce, TxData, AfterRequest,
      OneActorWorld, PostState, SmallManifest, ContractSource;
    RequestIsAdmitted(m, levels);
    SimpleDigests(m, levels);
    ExecutesSimply(m, FirstChain().limits, w, 1, "x", tx.args);
    AfterRequestSteps(tx);
    AfterRequestValid(tx, m.blake3);
    PostStateIs(m, FirstChain(), tx, ZERO_HASH, Conclude(w, w, 1, "x"), AfterRequest());
  }

  lemma SimpleDigests(m: Machine, levels: nat)
    requires Simple(m) && levels <= 31
    ensures m.blake3("") == "" && TxId(m.crypto, NestedRequest(levels)) == Some(ZERO_HASH)
  {
    RequestDigests(m.crypto, levels);
    hide Zeros, Nested, TxId, OneActorWorld;
  }

  lemma RequestEvents()
    ensures NewEvents(OneActorWorld(), AfterRequest()) == [COMMAND_EVENT, LEDGER_EVENT]
  {
    hide Zeros;
    assert OneActorWorld().events == [];
    assert [COMMAND_EVENT, LEDGER_EVENT][0..] == [COMMAND_EVENT, LEDGER_EVENT];
  }

  // ---------- its block ----------

  function EventJson(e: Event): Json {
    Obj(Fields(EVENT_NAMES, [Int(e.id), Int(e.head), Str(e.kind), Maybe(e.entityId), e.data]))
  }

  lemma SmallEventPrints(e: Event)
    requires e.id < 10 && e.head < 10 && |e.kind| <= 64 && e.entityId == Some(1)
    requires Fits(e.data, 2) && |Print(e.data)| <= 10_000
    ensures Fits(EventJson(e), 1) && |Print(EventJson(e))| <= 60_000
  {
    hide Print, Fits, Fields;
    var values := [Int(e.id), Int(e.head), Str(e.kind), Maybe(e.entityId), e.data];
    forall i | 0 <= i < |values|
      ensures Fits(values[i], 2) && |Print(values[i])| <= 10_000
    {
      if i < 4 {
        SmallPrints(values[i]);
        LeafFits(values[i], 1, 2);
      }
    }
    RecordPrints(EVENT_NAMES, values, 10_000);
    RecordFits(EVENT_NAMES, values, 1);
  }

  lemma SmallObjectPrints(names: seq<string>, values: seq<Json>)
    requires |names| == |values| <= 3 && Distinct(names)
    requires forall i :: 0 <= i < |names| ==> |names[i]| <= 30 && Small(values[i])
    ensures Fits(Obj(Fields(names, values)), 2) && |Print(Obj(Fields(names, values)))| <= 10_000
  {
    hide Print, Fits, Fields;
    forall i | 0 <= i < |names|
      ensures Fits(values[i], 3) && |Print(values[i])| <= 1_000
    {
      SmallPrints(values[i]);
      LeafFits(values[i], 1, 3);
    }
    RecordPrints(names, values, 1_000);
    RecordFits(names, values, 2);
  }

  lemma ActionFields()
    ensures COMMAND_EVENT.data == Obj(Fields(["action"], [Str("x")]))
  {
    assert Fields([], []) == map[];
    assert ["action"][..0] == [] && [Str("x")][..0] == [];
  }

  lemma TxDataFields(id: string, from: string, nonce: nat)
    ensures TxData(id, from, nonce) == Obj(Fields(["tx_id", "from", "nonce"], [Str(id), Str(from), Int(nonce)]))
  {
    var names, values := ["tx_id", "from", "nonce"], [Str(id), Str(from), Int(nonce)];
    assert names[..2][..1] == ["tx_id"] && values[..2][..1] == [Str(id)];
    assert names[..2][..1][..0] == [] && values[..2][..1][..0] == [];
    assert Fields(["tx_id"], [Str(id)]) == map["tx_id" := Str(id)];
    assert Fields(names[..2], values[..2]) == map["tx_id" := Str(id), "from" := Str(from)];
  }

  lemma ActionPrints(action: string)
    requires |action| <= 64
    ensures Fits(Obj(Fields(["action"], [Str(action)])), 2)
    ensures |Print(Obj(Fields(["action"], [Str(action)])))| <= 10_000
  {
    hide Print, Fits, Fields;
    SmallObjectPrints(["action"], [Str(action)]);
  }

  lemma TxDataPrints(id: string, from: string, nonce: nat)
    requires |id| <= 64 && |from| <= 64 && nonce < 10
    ensures Fits(TxData(id, from, nonce), 2) && |Print(TxData(id, from, nonce))| <= 10_000
  {
    TxDataFields(id, from, nonce);
    var names := ["tx_id", "from", "nonce"];
    assert Distinct(names) by {
      assert "tx_id"[0] != "from"[0] && "tx_id"[0] != "nonce"[0] && "from"[0] != "nonce"[0];
    }
    hide Print, Fits, Fields, TxData;
    SmallObjectPrints(names, [Str(id), Str(from), Int(nonce)]);
  }

  lemma EventDataPrints()
    ensures Fits(COMMAND_EVENT.data, 2) && |Print(COMMAND_EVENT.data)| <= 10_000
    ensures Fits(LEDGER_EVENT.data, 2) && |Print(LEDGER_EVENT.data)| <= 10_000
  {
    hide Print, Fits, Fields, Zeros, TxData;
    ActionFields();
    ActionPrints("x");
    TxDataPrints(ZERO_HASH, "a", 0);
  }

  lemma PairPrints(a: Json, b: Json)
    ensures |Print(Arr([a, b]))| == |Print(a)| + |Print(b)| + 3
    ensures Fits(Arr([a, b]), 0) <==> Fits(a, 1) && Fits(b, 1)
  {
    assert [a, b][1..] == [b];
    assert PrintItems([b]) == Print(b);
    assert PrintItems([a, b]) == Print(a) + "," + PrintItems([b]);
    assert Arr([a, b]).items[0] == a && Arr([a, b]).items[1] == b;
  }

  lemma PairOfEvents(a: Event, b: Event)
    ensures EventsJson([a, b]) == Arr([EventJson(a), EventJson(b)])
  {
    hide Fields;
  }

  lemma EventsAreCanonical()
    ensures Canonical(EventsJson([COMMAND_EVENT, LEDGER_EVENT])).Some?
  {
    var a, b := COMMAND_EVENT, LEDGER_EVENT;
    EventDataPrints();
    PairOfEvents(a, b);
    hide Print, Fits, EventsJson, EventJson, Zeros;
    SmallEventPrints(a);
    SmallEventPrints(b);
    PairPrints(EventJson(a), EventJson(b));
    ShortIsCanonical(EventsJson([a, b]));
  }

  function RequestResult(): ExecutionResult {
    ExecutionResult(ZERO_HASH, "a", 0, true, [], Null, Some(1), Some(2), ZERO_HASH)
  }

  lemma ResultPrints()
    ensures Fits(ResultJson(RequestResult()), 1) && |Print(ResultJson(RequestResult()))| <= 12_000
  {
    hide Fields, Zeros, Print, Fits, Strings, ResultJson;
    ResultFieldsPrint(RequestResult());
    FieldsPrint(RequestResult());
  }

  lemma ResultFieldsPrint(r: ExecutionResult)
    requires |r.txId| <= 64 && |r.from| <= 64 && r.nonce < 10 && r.messages == [] && r.result == Null
    requires r.firstEventId == Some(1) && r.lastEventId == Some(2) && |r.eventsDigest| <= 64
    ensures forall i :: 0 <= i < |ResultValues(r)| ==>
      Fits(ResultValues(r)[i], 2) && |Print(ResultValues(r)[i])| <= 1_000
  {
    var values := ResultValues(r);
    assert Strings([]) == Arr([]) && Print(Arr([])) == "[]";
    hide Print, Fits, Strings;
    forall i | 0 <= i < |values|
      ensures Fits(values[i], 2) && |Print(values[i])| <= 1_000
    {
      if i == 4 {
        StringsFit([], 2);
      } else {
        SmallPrints(values[i]);
        LeafFits(values[i], 1, 2);
      }
    }
  }

  lemma FieldsPrint(r: ExecutionResult)
    requires forall i :: 0 <= i < |ResultValues(r)| ==>
      Fits(ResultValues(r)[i], 2) && |Print(ResultValues(r)[i])| <= 1_000
    ensures Fits(ResultJson(r), 1) && |Print(ResultJson(r))| <= 12_000
  {
    hide Fields, Print, Fits;
    RecordPrints(RESULT_NAMES, ResultValues(r), 1_000);
    RecordFits(RESULT_NAMES, ResultValues(r), 1);
  }

  lemma ResultIs(m: Machine, levels: nat, receipt: Receipt)
    requires Simple(m) && levels <= 31 && receipt.messages == [] && receipt.result == Null
    ensures ResultOf(m, NestedRequest(levels), receipt, [COMMAND_EVENT, LEDGER_EVENT]) == Some(RequestResult())
  {
    RequestDigests(m.crypto, levels);
    EventsAreCanonical();
    ConstantDigest(m.crypto, ZERO_HASH, Events, EventsJson([COMMAND_EVENT, LEDGER_EVENT]));
    hide Zeros, EventsJson, Canonical, Digest, TxId, Nested, Constant, OneActorWorld;
  }

  lemma IdListIsCanonical(id: string)
    requires |id| <= 64
    ensures Canonical(Strings([id])).Some?
  {
    assert Strings([id]) == Arr([Str(id)]);
    hide Print, Fits, Strings, Canonical;
    SmallPrints(Str(id));
    SingletonPrints(Str(id));
    SingletonFits(Str(id), 0);
    ShortIsCanonical(Strings([id]));
  }

  lemma ResultList(r: ExecutionResult)
    ensures ResultsJson([r]) == Arr([ResultJson(r)])
  {
    hide ResultJson;
  }

  lemma ResultListIsCanonical(r: ExecutionResult)
    requires Fits(ResultJson(r), 1) && |Print(ResultJson(r))| <= 12_000
    ensures Canonical(ResultsJson([r])).Some? && |Print(ResultsJson([r]))| <= 13_000
  {
    hide Print, Fits, ResultsJson, ResultJson, Canonical;
    ResultList(r);
    SingletonPrints(ResultJson(r));
    SingletonFits(ResultJson(r), 0);
    ShortIsCanonical(ResultsJson([r]));
  }

  lemma ListsAreCanonical()
    ensures Canonical(Strings([ZERO_HASH])).Some? && Canonical(ResultsJson([RequestResult()])).Some?
    ensures |Print(ResultsJson([RequestResult()]))| <= 13_000
  {
    hide Print, Fits, Strings, ResultsJson, ResultJson, Zeros, RequestResult, Canonical;
    ResultPrints();
    IdListIsCanonical(ZERO_HASH);
    ResultListIsCanonical(RequestResult());
  }

  lemma HeaderIs(m: Machine)
    requires Simple(m)
    ensures HeaderOf(m, FirstChain(), AfterRequest(), RequestResult()) == Some(HeaderAt(1))
  {
    ManifestLimits();
    ListsAreCanonical();
    HeaderAtHashed(m.crypto, 0);
    StateIsNull(m, AfterRequest());
    ConstantDigest(m.crypto, ZERO_HASH, Transactions, Strings([ZERO_HASH]));
    ConstantDigest(m.crypto, ZERO_HASH, Results, ResultsJson([RequestResult()]));
    hide Zeros, Canonical, Digest, StateDigest, HeaderHash, Strings, ResultsJson, OneActorWorld, AfterRequest, Constant,
      SmallManifest;
  }

  function NestedBlock(levels: nat): LedgerBlock {
    LedgerBlock(HeaderAt(1), [NestedRequest(levels)], [RequestResult()])
  }

  lemma PairCommitted(c: Crypto, z: string, h: BlockHeader, tx: LedgerTransaction, r: ExecutionResult)
    requires HeaderHash(c, h).Some? && h.txCount == 1 && PairOk(c, h, tx, r)
    requires Constant(c, z) && h.transactionsDigest == z && h.resultsDigest == z
    requires Canonical(Strings([r.txId])).Some? && Canonical(ResultsJson([r])).Some?
    ensures Commitments(c, LedgerBlock(h, [tx], [r])).Some?
  {
    assert Ids([r]) == [r.txId];
    ConstantDigest(c, z, Transactions, Strings([r.txId]));
    ConstantDigest(c, z, Results, ResultsJson([r]));
    hide Canonical, Digest, HeaderHash, Strings, ResultsJson, PairOk, Constant;
  }

  lemma RequestMatches(c: Crypto, levels: nat)
    requires TxId(c, NestedRequest(levels)) == Some(ZERO_HASH)
    ensures PairOk(c, HeaderAt(1), NestedRequest(levels), RequestResult())
  {
    hide Zeros, Nested, TxId, IsLowerHex;
    ZeroHashIsHex();
  }

  lemma BlockIsCommitted(c: Crypto, levels: nat)
    requires Constant(c, ZERO_HASH) && levels <= 31
    ensures Commitments(c, NestedBlock(levels)).Some?
  {
    hide Zeros, Nested, Canonical, Digest, HeaderHash, Strings, ResultsJson, TxId, Constant, IsLowerHex, Commitments,
      Print, HeaderJson, SigningDigest, NestedRequest, PairOk;
    RequestDigests(c, levels);
    ListsAreCanonical();
    HeaderAtHashed(c, 1);
    RequestMatches(c, levels);
    PairCommitted(c, ZERO_HASH, HeaderAt(1), NestedRequest(levels), RequestResult());
  }

  /** The block of a request that nests at most 31 levels. */
  lemma RequestIsProposed(m: Machine, levels: nat)
    requires Simple(m) && levels <= 31
    ensures Propose(m, FirstChain(), NestedRequest(levels)) == Some(Proposal(AfterRequest(), NestedBlock(levels)))
  {
    var l, tx := FirstChain(), NestedRequest(levels);
    RequestRuns(m, levels);
    RequestEvents();
    ResultIs(m, levels, PostState(m, l, tx).value.1);
    HeaderIs(m);
    BlockIsCommitted(m.crypto, levels);
    hide PostState, ResultOf, HeaderOf, Commitments, OneActorWorld, AfterRequest, NewEvents, Simple, Nested, Zeros,
      RequestResult;
  }

  lemma PartsPrint(h: BlockHeader, tx: LedgerTransaction, r: ExecutionResult)
    requires |Print(HeaderJson(h))| <= 13_000 && |Print(TxJson(tx))| <= 12_000 && |Print(ResultsJson([r]))| <= 13_000
    ensures |Utf8(Print(BlockJson(LedgerBlock(h, [tx], [r]))))| <= MAX_BYTES
  {
    SingletonJson(tx, r);
    var values := [HeaderJson(h), TxsJson([tx]), ResultsJson([r])];
    hide HeaderJson, TxJson, ResultsJson, TxsJson, Print, Fits, Fields, Utf8;
    SingletonPrints(TxJson(tx));
    RecordPrints(BLOCK_NAMES, values, 13_000);
    Utf8Length(Print(BlockJson(LedgerBlock(h, [tx], [r]))));
  }

  lemma BlockPrints(levels: nat)
    requires levels <= 31
    ensures |Utf8(Print(BlockJson(NestedBlock(levels))))| <= MAX_BYTES
  {
    hide Zeros, Nested, Canonical, HeaderJson, TxJson, ResultsJson, Print, Fits, RequestResult, Utf8, BlockJson,
      HeaderAt, NestedRequest;
    HeaderPrints();
    RequestIsCanonical(levels);
    ListsAreCanonical();
    PartsPrint(HeaderAt(1), NestedRequest(levels), RequestResult());
  }

  lemma HeaderPrints()
    ensures |Print(HeaderJson(HeaderAt(1)))| <= 12_000
  {
    HeaderAtHashed(SimpleMachine().crypto, 1);
  }

  /**
   A signed request to a ledger opened on any such machine: nested up to 31 levels it is
   proposed, and its block is applied, or the transaction submitted, exactly up to 29 levels.
   */
  lemma NestedRequestApplies(m: Machine, levels: nat)
    requires Simple(m) && levels <= 31
    ensures var l, tx := FirstChain(), NestedRequest(levels);
      && New(m, SmallManifest()) == Some(l) && Sound(m, l) && HasResults(l)
      && Propose(m, l, tx).Some?
      && (Apply(m, l, Propose(m, l, tx).value.block).Some? <==> levels <= 29)
      && (Submit(m, l, tx).block.Some? <==> levels <= 29)
  {
    var l, tx := FirstChain(), NestedRequest(levels);
    hide Simple, New, Sound, Propose, Apply, TxId, Fits, Print, BlockJson, Utf8, AfterRequest, OneActorWorld, Nested,
      Zeros, SmallManifest, Submit, HasResults, Find, FirstChain, NestedRequest, NestedBlock;
    SimpleOpens(m);
    NewIsSound(m, SmallManifest());
    SimpleDigests(m, levels);
    RequestIsProposed(m, levels);
    BlockAppliesIff(m, levels);
    NoBlocksYet(ZERO_HASH);
    SubmitsNew(m, l, tx, ZERO_HASH);
  }

  lemma BlockAppliesIff(m: Machine, levels: nat)
    requires levels <= 31 && Propose(m, FirstChain(), NestedRequest(levels)).Some?
    requires Propose(m, FirstChain(), NestedRequest(levels)).value.block == NestedBlock(levels)
    ensures Apply(m, FirstChain(), NestedBlock(levels)).Some? <==> levels <= 29
  {
    var l, tx := FirstChain(), NestedRequest(levels);
    NullIsNested();
    BlockPrints(levels);
    hide Propose, Apply, Fits, Print, BlockJson, Utf8, AfterRequest, Nested, Zeros, FirstChain;
    AppliesIff(m, l, tx, Propose(m, l, tx).value);
    NestedFits(levels, 3);
    NestedFits(0, 3);
  }

  lemma NoBlocksYet(id: string)
    ensures HasResults(FirstChain()) && Find(FirstChain().blocks, 1, id).None?
  {
  }

  lemma SubmitsNew(m: Machine, l: Chain, tx: LedgerTransaction, id: string)
    requires HasResults(l) && TxId(m.crypto, tx) == Some(id) && Find(l.blocks, 1, id).None? && Propose(m, l, tx).Some?
    ensures Submit(m, l, tx).block.Some? <==> Apply(m, l, Propose(m, l, tx).value.block).Some?
  {
    hide Propose, Apply, TxId, Find;
  }

  lemma NullIsNested()
    ensures Nested(0) == Null
  {
  }
}
