# Aomori: a verified model

Aomori is a deterministic single-node world engine: accounts own entities, entities run Lua
contracts, contracts change the world through a fixed set of host operations, and every
change is logged, validated and saved as a snapshot. An experimental ledger chains signed
transactions over the same runtime. This project models that engine in Dafny and proves
what it is relied on for.

- **World** (`model`, `quest_graph`, `validation`, `world_laws`): the state, the nine commit checks,
  the validators as they run, including the full Kahn sort over quest prerequisites, and what a
  valid world is, spelled out.
- **Runtime** (`host_ops`, `execution` as functions; `runtime`, `executor` as the classes and
  loops that change the world in place): host operations, command execution with its change
  log, signed transactions.
- **Laws of the world** (`host_laws`, `host_validity`, `commit_validity`, `authority`, `history`,
  `receipts`, `change_log`, `change_events`, `quest_rewards`): what every call means, and what every
  call, script and run of writes keeps.
- **Ledger codec** (`json`, `text`, `json_text`, `json_grammar`, `json_codec`, `json_laws`,
  `json_strings`, `json_printer`, `json_scanner`, `json_js`): the canonical printer and strict
  parser of RFC 8259 text (strings as in its section 7), both sides of the wire.
- **Ledger** (`ledger`, `ledger_chain`, `ledger_genesis`, `ledger_runs`, `ledger_laws`,
  `ledger_checks`, `memory_ledger`): digests, block commitments, proposing, applying and
  submitting, as functions and as the object whose methods update it.
- **Durability** (`formats`, `snapshots`, `snapshot_laws`, `storage`, `migration`, `startup`,
  `service`, `deep_data`): the two-file snapshot protocol with a crash or failure at any step,
  format and inventory migration, startup, and whole runs of the server.
- **Edges** (`limiter`, `event_stream`, `live_events`, `lua_tables`): the token bucket, event
  recovery between server and browser, Lua table conversion.

The foreign parts are parameters: the Lua machine is a deterministic function from the world
and a request to the host calls it makes, its narration and its result; BLAKE3 and Ed25519 are
arbitrary functions and predicates, and theorems that need hashes not to collide say so of the
finitely many values hashed. What serde reads from the text of a float is an arbitrary function
of that float; theorems that need a saved world to read back say so of that world
(`Snapshots.Readable`), and `Snapshots.SavedDecodes` shows that this is exactly what they need.

## Where the code falls short of a simpler claim

- A proposed block cannot always be applied: a block nests arguments and results two levels
  deeper than the signature does. `LedgerLaws.AppliesIff` gives the exact condition,
  `LedgerLaws.DeepArgumentsCannotBeApplied` a family of inputs, and
  `LedgerGenesis.NestedRequestApplies` a ledger on which they are proposed.
  doc/ledger-v2-execution.md says only that `apply` compares the entire expected block.
- A startup that fails to *read* a good primary falls back to the backup and overwrites the
  primary with it (`Storage.SnapshotStore.LoadWithStatus`): an acknowledged write is lost, and
  `Service.FallbackLosesLastWrite` says exactly which promises are. doc/api.md and
  doc/operations.md speak of a corrupt or missing primary only.
- serde_json reads arrays and objects at most 127 levels deep, and writes them without a limit. A
  contract that stores a table nested 123 levels or more in its entity's data is validated, saved
  and acknowledged, and that file never decodes (`DeepData.StoredDataParsesIff`). Later saves then
  keep the old backup, and the next start returns to it: `Service.UnreadWritesAreLost` says which
  promises are left, and `Service.StoredIsSoundIff` that a stored write keeps its promises exactly
  if its world can be read back. A float that does not read back as itself does the same harm.
- doc/api.md asks the client to recover on every lag message; while a recovery is in flight the
  code joins that one instead. A failed recovery with nothing buffered leaves its socket open. A
  socket opened during a recovery buffers behind a page it does not match. And a live event whose
  data is not an object, such as one of `host.emit_event("bell")`, is refused by the browser and
  not asked for again; valid runs commit such events (`LiveEvents.AnyDataIsCommitted`,
  `LiveEvents.RefusedEventsOccur`). `EventStream.StepIsSound` says exactly when all these steps
  are harmless; `EventStream.LagDuringRecoveryLosesEvents`,
  `EventStream.FailedRecoveryLosesEvents`, `EventStream.ReconnectionLosesEvents` and
  `EventStream.RefusedEventIsLost` that events can be lost in every other case.
- `move_entity`, `spawn_entity` and the administrative `create_entity` can leave a world that
  does not validate; `HostValidity.MoveEntityValidIff`, `HostValidity.SpawnEntityValidIff` and
  `HostValidity.CreateEntityValidIff` say exactly when they do not. The last one also logs no
  event (`ChangeLog.CreationIsSilent`); it alone keeps the log from telling the whole change
  (`ChangeLog.LogIsFaithfulIff`).
- A command without an action name, or one whose script sets the data key `inventory` on an
  actor, runs and is refused only by the save: `CommitValidity.SafeCommandCommits` gives the exact
  condition, `CommitValidity.MarkingScriptIsRefused` a family of scripts that passes validation
  and fails the schema check.
- Contract keys are not injective (`Model.ContractKeyClash`).
- A JSON value with a null inside, an empty array, or an integer beyond 64 bits does not come
  back from Lua (`LuaTables.LuaRoundTrip`).

## Model

| member | source | states |
|---|---|---|
| Model.ProgressKeyInjective | src/runtime.rs:421-423 | a quest progress key determines actor and quest, whatever the quest id contains |
| Model.ContractKeyClash | src/runtime.rs:69-75 | exactly which contracts share a key |
| QuestGraph.TopologicalSort | src/model.rs:582-620 | the loop processes every quest if and only if the prerequisite relation has no cycle; it terminates, no indegree underflows, every lookup exists |
| QuestGraph.BuildDependents | src/model.rs:587-595 | the dependents table inverts the prerequisite relation |
| QuestGraph.Release | src/model.rs:601-612 | popping one quest keeps: each indegree counts the prerequisites still unprocessed, the queue holds exactly the free quests |
| QuestGraph.OrderedIsAcyclic | src/model.rs:541-621 | a complete processing order excludes every cycle |
| QuestGraph.BlockedHasCycle | src/model.rs:541-621 | quests that wait for each other contain a cycle |
| Validation.ValidateQuests | src/model.rs:541-621 | accepts exactly the quest sets that pass the per-quest checks and have no cycle |
| Validation.ValidateInventories | src/model.rs:471-530 | accepts exactly the worlds whose inventories and item locations index each other, both ways, without repetition |
| Validation.ValidateEvents | src/model.rs:175-306 | accepts exactly the logs with rising ids, heads within the world's, well-formed reserved events and no transaction logged twice |
| Validation.Validate | src/model.rs:532-539 | the commit gate accepts exactly the valid worlds |
| WorldLaws.ValidIff | src/model.rs:175-621 | a world is valid exactly if every account, contract, entity, progress entry, receipt, event, quest and inventory stands, spelled out entry by entry, and no quest requires itself in a round |
| HostValidity.MoveActorKeepsValid | src/runtime.rs:476-505 | moving an actor keeps the whole of validation |
| HostValidity.TakeItemValidIff | src/runtime.rs:506-541 | taking an item keeps validity exactly when the caller is an actor |
| HostValidity.DropItemKeepsValid | src/runtime.rs:542-572 | dropping keeps both directions of the inventory index |
| HostValidity.TransferItemKeepsValid | src/runtime.rs:573-629 | a transfer keeps both directions of the inventory index |
| HostValidity.MoveEntityValidIff | src/runtime.rs:646-673 | exactly which relocations keep validity |
| HostValidity.SpawnEntityValidIff | src/runtime.rs:674-705 | exactly which spawns keep validity |
| HostValidity.CreateEntityValidIff | src/runtime.rs:77-108 | exactly which administrative creations keep validity |
| HostValidity.AcceptQuestValidIff | src/runtime.rs:798-854 | accepting a quest keeps validity exactly for an actor |
| HostValidity.CompleteQuestKeepsValid | src/runtime.rs:855-936 | completing a quest keeps validity, consumed item included |
| HostValidity.UpdateEntityDataKeepsValid | src/runtime.rs:706-736 | editing data keeps validity |
| HostValidity.EmitEventKeepsValid | src/runtime.rs:738-778 | script events keep validity |
| HostValidity.CreditKeepsValid | src/runtime.rs:955-979 | crediting keeps validity |
| HostValidity.RefusedCallChangesNothing | src/runtime.rs:476-979 | in a valid world a refused call changes nothing |
| HostValidity.SafeScriptKeepsValid | src/runtime.rs:476-979 | any script of an actor that avoids the two unchecked calls leaves a valid world |
| HostLaws.MoveActorMeans | src/runtime.rs:476-505 | exactly when an actor is moved, and that nothing but its place changes |
| HostLaws.TakeItemMeans | src/runtime.rs:506-541 | an item is taken exactly from where the caller is, if nobody carries it, and goes to the end of the inventory |
| HostLaws.DropItemMeans | src/runtime.rs:542-572 | exactly a carried item is dropped, exactly where the caller is; the rest of the inventory keeps its order |
| HostLaws.TransferItemMeans | src/runtime.rs:573-629 | exactly a carried item is handed to another actor at the same place |
| HostLaws.MoveEntityMeans | src/runtime.rs:646-673 | an entity is moved exactly by scripts of its own owner |
| HostLaws.SpawnMeans | src/runtime.rs:674-705 | exactly when an entity is spawned, and that it has a new id, the caller's owner and what was asked for |
| HostLaws.CreateMeans | src/runtime.rs:77-108 | the same of an administrative creation |
| HostLaws.UpdateMeans | src/runtime.rs:706-736 | one key of one entity is set, exactly by scripts of its own owner |
| HostLaws.EmitMeans | src/runtime.rs:738-778 | exactly which events are emitted, and with which fields |
| HostLaws.CreditMeans | src/runtime.rs:955-979 | only the owner's balance rises, by the amount, exactly if it stays within 64 bits |
| HostLaws.AcceptMeans | src/runtime.rs:798-854 | a quest is accepted exactly once, at its giver's place, after all its prerequisites |
| HostLaws.FoundItem | src/runtime.rs:896-910 | the search finds the first carried item that exists and has the name, and nothing exactly if there is none |
| HostLaws.CompleteIff | src/runtime.rs:855-936 | a quest is completed exactly if it was accepted, the caller stands at its zone, carries an item of the required name, and the reward can be paid |
| HostLaws.CompleteMeans | src/runtime.rs:911-936 | the reward goes to the actor's owner, the first item of the required name is gone if the quest consumes it and nothing otherwise, and the quest is completed |
| Authority.ScriptStaysOwn | src/runtime.rs:448-989 | whatever a script calls: no entity changes kind, owner or contract, data changes only for the script's owner, new entities are that owner's, nobody gets poorer, nobody else richer, and only the caller's progress moves |
| Authority.CommandStaysOwn | src/runtime.rs:170-344 | the same of a whole command |
| Authority.QueryChangesNothing | src/runtime.rs:170-276 | a query leaves the world alone |
| Authority.CommandSucceedsIff | src/runtime.rs:170-344 | a command succeeds exactly if the contract deployed for its entity finishes with a result, which it answers |
| Authority.TransactionSucceedsIff | src/runtime.rs:350-407 | a transaction succeeds exactly if its sender has the account, signs with its key if it has one, spends the next nonce, owns the entity, and the command would succeed; its receipt says what it did |
| Authority.TransactionStaysOwn | src/runtime.rs:350-407 | its effect stays within its sender's authority, and it spends one nonce |
| Authority.CreateAccountMeans | src/rpc.rs:823-850 | exactly when an account is opened, and with which fields |
| Authority.DeployMeans | src/runtime.rs:41-67 | exactly when a contract is deployed, as it was sent and with the digest of its source |
| Authority.RunKeepsRegistered | src/rpc.rs:778-805 | no run of writes changes an account's key or a deployed contract, or lowers a nonce |
| Authority.EveryReceiptIsAccountable | src/rpc.rs:859-881 | behind every receipt of a run from genesis is a request of it that was proper in the world it met, signed with the key the account still has, whose contract came to the recorded result |
| Authority.BalancesFit | src/runtime.rs:955-979 | over every run no balance leaves 64 bits |
| CommitValidity.ConcludeValidIff | src/runtime.rs:277-329 | the head, change events and closing event a command appends keep validity exactly when the action has a name |
| CommitValidity.ScriptMarksExactly | src/storage.rs:515-532 | a safe script leaves an actor with the key the schema check refuses exactly when there was one or a successful call set one |
| CommitValidity.SafeCommandCommits | src/storage.rs:126-146 | what a well-behaved command of an actor leaves behind passes both gates of a save exactly when its action has a name, no actor had the legacy key and no call set it |
| CommitValidity.SafeTransactionCommits | src/rpc.rs:872-878 | the same of a signed transaction with a new digest, receipt and event included |
| CommitValidity.MarkingScriptIsRefused | src/storage.rs:400-404 | a script that writes the key `inventory` into its own actor finishes, leaves a valid world, and cannot be saved |
| Runtime.Position | src/runtime.rs:560-563 | finds the first place of an item, if it is there at all |
| Runtime.RemoveAt | src/runtime.rs:564 | removing there removes the first occurrence and nothing else |
| Runtime.Without | src/runtime.rs:925-931 | the loop keeps everything but the item |
| Runtime.FirstNamed | src/runtime.rs:896-910 | the loop finds the first carried item of a name |
| Runtime.WorldState.DeployVersion | src/runtime.rs:41-67 | in-place deployment has exactly the specified effect |
| Runtime.WorldState.NewEntity | src/runtime.rs:77-108 | in-place creation has exactly the specified effect and a fresh id |
| Runtime.WorldState.PushEvent | src/runtime.rs:409-419 | appends one event with the next id |
| Runtime.Host.DoMoveActor | src/runtime.rs:476-505 | the in-place call has exactly the specified effect, and a query's call none |
| Runtime.Host.DoTakeItem | src/runtime.rs:506-541 | likewise |
| Runtime.Host.DoDropItem | src/runtime.rs:542-572 | likewise, including the item leaving the inventory before its entity is looked up |
| Runtime.Host.DoTransferItem | src/runtime.rs:573-629 | likewise |
| Runtime.Host.DoMoveEntity | src/runtime.rs:646-673 | likewise |
| Runtime.Host.DoSpawnEntity | src/runtime.rs:674-705 | likewise |
| Runtime.Host.DoUpdateEntityData | src/runtime.rs:706-736 | likewise |
| Runtime.Host.DoEmitEvent | src/runtime.rs:738-778 | likewise |
| Runtime.Host.DoAcceptQuest | src/runtime.rs:798-854 | likewise, with the prerequisite loop |
| Runtime.Host.DoCompleteQuest | src/runtime.rs:855-936 | likewise, with the search and the consumption |
| Runtime.Host.DoCreditBalance | src/runtime.rs:955-979 | likewise, with the overflow check |
| Runtime.Host.Play | src/runtime.rs:270-277 | a script's calls in order; a query leaves the world alone |
| Executor.SortIds | src/runtime.rs:280-288 | collecting ids into a sorted set lists each once, ascending |
| Executor.LogChangedEntities | src/runtime.rs:280-301 | one event per entity that differs, in id order |
| Executor.LogChangedProgress | src/runtime.rs:302-323 | one event per progress entry that differs, in key order |
| Executor.Publish | src/runtime.rs:277-329 | publishing a script's world has exactly the specified effect |
| Executor.ExecuteInternal | src/runtime.rs:170-344 | execution has exactly the specified effect, the late result failure included |
| Executor.RunTransaction | src/runtime.rs:350-407 | a signed transaction has exactly the specified effect |
| History.CallKeepsBooks | src/runtime.rs:448-989 | host calls touch of the accounts only balances, and never receipts, contracts or quests |
| History.CommitKeepsLog | src/runtime.rs:409-419 | every write, saved or not, extends the log; ids stay 1..n and heads never decrease |
| Receipts.CommitKeepsBook | src/rpc.rs:859-881 | every write keeps: an account's receipts carry each spent nonce exactly once |
| Receipts.EveryRunIsExact | src/rpc.rs:778-805 | over every run from genesis: the world is valid, event ids are 1..n, the receipts of each account carry each nonce below its own exactly once |
| Receipts.ReceiptsMatchEvents | src/model.rs:175-306 | receipts and `transaction_executed` events correspond one to one |
| Receipts.CommittedReceipt | src/rpc.rs:872-880 | a committed receipt is stored under a new id and its state root is the committed world's |
| Receipts.EveryReceiptHasItsRoot | src/rpc.rs:872-880 | over every run from genesis: each stored receipt is, unchanged, the one its own transaction wrote, and its state root is the root of the world that write committed |
| ChangeLog.CommandReplays | src/runtime.rs:277-329 | replaying one command's events over the world before it gives its entity ids and quest progress |
| ChangeLog.CommitReplays | src/rpc.rs:1031-1056 | the same of any of the five writes, committed or refused, if and only if it is not a committed administrative creation |
| ChangeLog.LogIsFaithful | src/runtime.rs:277-329 | over any run of all five writes, folding the change events over the start gives exactly the final quest progress, and the final entity ids but for those created administratively |
| ChangeLog.LogIsFaithfulIff | src/runtime.rs:277-329 | from a valid world the log tells everything exactly if no administratively created entity is left |
| ChangeLog.CreationIsSilent | src/runtime.rs:77-108 | an administrative creation logs nothing, so the log then falls short by that entity |
| ChangeEvents.CommandIsRecorded | src/runtime.rs:277-329 | behind its script's events a command logs exactly one event for each entity that differs, by rising id, as created, deleted or updated; one for each progress entry that differs, by rising key, with quest and status; and itself; all at the new head |
| ChangeEvents.LateFailureIsLogged | src/runtime.rs:277-344 | a command whose result has no JSON form fails after it has changed the world and logged itself |
| ChangeEvents.RunNames | src/runtime.rs:277-301 | every entity that differs between start and end of a run is named by an event of the run, or was created administratively |
| QuestRewards.CallAccounts | src/runtime.rs:855-979 | one call conserves: balance plus earned before equals balance before plus credit plus earned after |
| QuestRewards.TransitivePrerequisites | src/runtime.rs:813-828 | progress on a quest means every quest reachable through prerequisites is completed for that actor |
| QuestRewards.RunAccounts | src/runtime.rs:798-979 | over any run from a valid world: progress only rises, prerequisites stay ahead of it, each balance is its start plus deposits plus the rewards of completed pairs, each paid once |
| Text.Utf8OrderIsScalarOrder | src/ledger.rs:33 | byte order of UTF-8 keys is order by Unicode scalar |
| Text.SortIsSortedKeys | web/src/ledger.ts:30-34 | sorting any listing of an object's keys gives one sequence |
| JsonGrammar.ValueReads | src/ledger.rs:51-115 | the parser reads every well-formed concrete text to exactly its meaning, and stops behind it |
| JsonCodec.ValueSound | src/ledger.rs:51-115 | whatever the parser accepts is the text of a well-formed tree with that meaning |
| JsonLaws.AcceptsExactly | src/ledger.rs:51-115 | the parser accepts exactly the bounded texts of good trees whose value prints within limits |
| JsonLaws.RepeatedKeyRejected | src/ledger.rs:94-108 | a text with a key repeated after unescaping, at any nesting, is rejected |
| JsonLaws.EscapeRoundTrip | web/src/ledger.ts:48-55 | unescaping undoes escaping for every string |
| JsonStrings.UnitsReadBack | src/ledger.rs:51-115 | every scalar written as its UTF-16 units, each `\u` and four hex digits of either case, reads as exactly that scalar, whatever follows |
| JsonStrings.LoneSurrogateRefused | src/ledger.rs:51-115 | a surrogate that is no half of a pair is refused |
| JsonStrings.ShortEscapes | src/ledger.rs:51-115 | what each of the eight two-character escapes reads as |
| JsonStrings.NoEscape | src/ledger.rs:51-115 | no other character may follow a backslash |
| JsonStrings.PlainCharacter | src/ledger.rs:51-115 | any other character reads as itself, quotes and control characters are refused |
| JsonStrings.CanonicalEscape | src/ledger.rs:45-47 | the one text each character is printed as |
| JsonStrings.NumeralAppends | src/ledger.rs:51-115 | decimal digits count from the left by powers of ten |
| JsonStrings.WhiteSpace | src/ledger.rs:51-115 | the four white-space characters |
| JsonStrings.Utf8Decodes | src/ledger.rs:33 | the bytes of a scalar carry its bits |
| JsonLaws.RoundTrip | src/ledger.rs:13-115 | parsing a canonical text returns the value printed |
| JsonLaws.CanonicalInjective | src/ledger.rs:13-48 | different values have different canonical texts |
| JsonLaws.ParseThenPrint | src/ledger.rs:51-115 | whatever layout a text used, its value has one canonical text, which parses alike |
| JsonPrinter.PrintValue | src/ledger.rs:14-44 | the recursive loops print exactly the values within limits, at any depth |
| JsonPrinter.CanonicalJson | src/ledger.rs:13-48 | computes the canonical text, or refuses |
| JsonScanner.Scanner.Raw | web/src/ledger.ts:48-55 | the string loop finds the closing quote the grammar means |
| JsonScanner.Scanner.Value | web/src/ledger.ts:56-79 | the cursor scanner reads exactly what the parser function reads, and leaves the cursor behind it |
| JsonScanner.Scanner.Items | web/src/ledger.ts:65-74 | the item loop |
| JsonScanner.Scanner.Members | web/src/ledger.ts:65-74 | the member loop, with its set of seen keys |
| JsonScanner.ScanText | web/src/ledger.ts:44-85 | the whole scan, trailing input included |
| JsonScanner.ScanIsParse | web/src/ledger.ts:80-84 | with the final canonical check, the scanner accepts what the server's parser accepts |
| JsonJs.ClientAgreesWithServer | web/src/ledger.ts:8-42 | the browser prints every value as the server does, or both refuse it |
| JsonJs.PropertyOrderIrrelevant | web/src/ledger.ts:30-35 | the order in which properties were added, at any nesting, does not show |
| JsonJs.PermutationReorders | web/src/ledger.ts:30-35 | any permutation of an object's properties is such a reordering |
| Ledger.TxJsonInjective | src/ledger.rs:160-173 | a transaction's encoding determines it |
| Ledger.HeaderJsonInjective | src/ledger.rs:229-242 | a header's encoding determines it |
| Ledger.ResultJsonInjective | src/ledger.rs:279-291 | a result's encoding determines it |
| Ledger.BlockJsonInjective | src/ledger.rs:271-277 | a block's encoding determines it |
| Ledger.ManifestJsonInjective | src/ledger.rs:207-216 | a manifest's encoding determines it |
| Ledger.DigestBinds | src/ledger.rs:142-148 | equal digests of hashed values that do not collide come from equal values |
| LedgerRuns.PostStateContinues | src/ledger_runtime.rs:137-170 | a candidate world is valid, extends the log, spends one nonce and keeps keys and receipts |
| LedgerRuns.ProposalShape | src/ledger_runtime.rs:171-203 | a proposed block's heights, hashes, commitments, event range and digests |
| LedgerRuns.AppliedIsProposed | src/ledger_runtime.rs:204-221 | only the ledger's own proposal for its transaction is ever applied |
| LedgerRuns.ProposedApplies | src/ledger_runtime.rs:204-221 | a proposal is applied exactly when the block itself has a canonical text |
| LedgerGenesis.RecordLength | src/ledger.rs:45-47 | a record of bounded fields has a bounded canonical text |
| LedgerGenesis.SomeLedgerOpens | src/ledger_runtime.rs:33-94 | a concrete manifest, with an account, its actor and a contract, opens a sound ledger on a concrete machine |
| LedgerGenesis.NestedRequestApplies | src/ledger_runtime.rs:116-236 | on every machine with constant digests and scripts that do nothing, a signed request whose arguments nest up to 31 levels is proposed, and applied or submitted exactly up to 29 levels |
| LedgerRuns.NewIsSound | src/ledger_runtime.rs:33-94 | an accepted manifest starts a sound ledger |
| LedgerRuns.ExtendIsSound | src/ledger_runtime.rs:116-203 | one more block keeps the chain, commitments, event tiling and nonce counts |
| LedgerRuns.EveryRunIsSound | src/ledger_runtime.rs:204-236 | over every run of accepted and refused calls: heights 0..n, parent hashes, the tip commits to the world, event ranges tile 1..next id - 1 and match their digests, each nonce counts the account's blocks and its k-th block carries nonce k, every block's transaction is signed for this chain with its sender's key, keys stay those of the genesis world, failed calls change nothing |
| LedgerRuns.ReplayReproduces | src/ledger_runtime.rs:204-221 | applying a run's recorded blocks to a fresh ledger reproduces that ledger |
| LedgerRuns.ProposalIsAuthorized | src/ledger_runtime.rs:117-136 | only what its sender signed for this chain with the account's key is proposed, with the next nonce, for an entity the sender owns |
| LedgerRuns.SigningJsonBinds | src/ledger.rs:176-188 | what is signed leaves out the signature and nothing else |
| LedgerRuns.EveryBlockIsAuthorized | src/ledger_runtime.rs:204-236 | over every run each block was appended by a call whose transaction was signed, had the next nonce and acted through an entity its sender owned then |
| LedgerChecks.TxIdMeans | src/ledger.rs:200-204 | a request has an id exactly if it is well formed and prints; the id hashes all of it |
| LedgerChecks.VerifiesMeans | src/ledger.rs:190-199 | a request verifies exactly if it is well formed and signed for this chain by this key |
| LedgerChecks.HeaderHashMeans | src/ledger.rs:244-268 | a header is hashed exactly if it is well formed and prints |
| LedgerChecks.CommitmentsMean | src/ledger.rs:293-333 | a body matches its header exactly if every transaction agrees with its result and the header, and both lists have the header's digests |
| LedgerChecks.AcceptedManifest | src/ledger_runtime.rs:33-94 | an accepted manifest is of the known versions and within limits, and its world is a valid beginning in which everyone can sign |
| LedgerChecks.ProposalRecords | src/ledger_runtime.rs:171-203 | a proposed block records its transaction and what the contract returned under the ledger's limits |
| LedgerChecks.EventsJsonBinds | src/ledger_runtime.rs:171-203 | what the events digest hashes determines the events, field by field |
| LedgerLaws.DistinctIds | src/ledger.rs:200-204 | all transaction ids of a run are distinct |
| LedgerLaws.ResubmitReturnsOriginal | src/ledger_runtime.rs:223-232 | submitting an included transaction again returns its own block and changes nothing |
| LedgerLaws.AppliesIff | src/ledger_runtime.rs:213-217 | a proposed block can be applied exactly when arguments and result nest at most 29 levels and its text is at most 1 MiB |
| LedgerLaws.DeepArgumentsCannotBeApplied | src/ledger.rs:15 | arguments 30 or 31 levels deep can be signed, yet their block is never applied and `submit` fails |
| LedgerLaws.HeaderBindsBody | src/ledger.rs:293-333 | a header fixes its block's transactions and results |
| LedgerLaws.SamePrefix | src/ledger_runtime.rs:186 | equal headers at one height mean equal blocks up to there |
| LedgerLaws.TipHashFixesLedger | src/ledger_runtime.rs:27-31 | two sound ledgers with equal tip hash are equal: genesis, blocks, world, limits |
| LedgerLaws.EqualTipsEqualRuns | src/ledger_runtime.rs:107-109 | so are the ledgers of any two runs from any two manifests |
| LedgerObject.VerifyTransaction | src/ledger.rs:190-199 | accepts exactly the transactions signed for this chain |
| LedgerObject.HashHeader | src/ledger.rs:244-268 | hashes exactly the well-formed headers |
| LedgerObject.ValidateCommitments | src/ledger.rs:293-333 | the loop accepts exactly the blocks whose body matches their header |
| LedgerObject.RunCandidate | src/ledger_runtime.rs:137-170 | the step-by-step candidate is the specified one |
| LedgerObject.MemoryLedger.Open | src/ledger_runtime.rs:33-94 | opens exactly for acceptable manifests, in the specified state |
| LedgerObject.MemoryLedger.Admit | src/ledger_runtime.rs:117-136 | the checks before execution; the key it unwraps is always there |
| LedgerObject.MemoryLedger.ExecuteCandidate | src/ledger_runtime.rs:116-203 | computes the specified proposal and changes nothing |
| LedgerObject.MemoryLedger.ApplyBlock | src/ledger_runtime.rs:204-221 | changes world, tip and blocks as specified or not at all, and keeps the invariant |
| LedgerObject.MemoryLedger.FindBlock | src/ledger_runtime.rs:225-232 | finds the first block after genesis that carries the id |
| LedgerObject.MemoryLedger.SubmitTx | src/ledger_runtime.rs:223-236 | answers and changes the ledger as specified, and keeps the invariant |
| Formats.FindFormatPath | src/storage.rs:315-342 | the search loop terminates for every table and computes the path function |
| Formats.LeadsUp | src/storage.rs:315-342 | a path starts at the source, is contiguous and strictly rising, and ends at the target |
| Formats.PathIsUnique | src/storage.rs:315-342 | a found path leads from source to target and is the only one that does |
| Formats.RefusedPathStops | src/storage.rs:319-339 | a refusal has a reason: the walk along sole entries stops at a version with no single way up |
| Formats.RegisteredPaths | src/storage.rs:18-22 | with the registered table exactly formats 1 and 2 can be read |
| Snapshots.DecodeContent | src/storage.rs:255-313 | decoding as it runs: version, migration path, schema, root and validation |
| Snapshots.SavedDecodes | src/storage.rs:138-145 | what a save writes decodes to the world saved, with nothing to rewrite, if and only if that world can be read back: its data nests within the parser's limit and its floats read as themselves |
| Snapshots.TooDeepNeverDecodes | src/storage.rs:257 | what nests deeper is written and never decodes |
| Snapshots.ExactIsReadable | src/storage.rs:257 | without floats a world can be read back exactly if it nests within the limit |
| SnapshotLaws.DecodesIff | src/storage.rs:255-313 | exactly which files decode: bare worlds under the old rules, and snapshots of version 1 or 2 whose recorded root is their world's, of the exact schema and valid where current |
| SnapshotLaws.DecodesTo | src/storage.rs:255-313 | what decodes is the file's own world, its root the recorded one, to be rewritten exactly if not current |
| SnapshotLaws.LegacyMeans | src/storage.rs:344-367 | the old rules differ from the current ones only in givers and inventories that are missing |
| SnapshotLaws.WrongRootFallsBack | src/storage.rs:286-293 | a primary recorded with another root is as good as none that decodes |
| SnapshotLaws.LoadsMeans | src/storage.rs:64-124 | which of two files is used, and that only an empty directory gives a new world |
| SnapshotLaws.LoadedRootMatches | src/storage.rs:286-293 | whatever is loaded was recorded with its root, unless its file is older than roots |
| Snapshots.BackupCopied | src/storage.rs:149-163 | copying a decodable primary to the backup makes no other load possible |
| Snapshots.PrimaryReplaced | src/storage.rs:164-165 | renaming a snapshot over the primary adds its world and nothing else |
| Snapshots.PrimaryDurable | src/storage.rs:166 | once durable, every load finds exactly its world |
| Storage.Directory.Rename | src/storage.rs:160-165 | the assumed step: atomic, durable only after the next directory sync |
| Storage.SnapshotStore.RollbackPrimary | src/storage.rs:233-253 | a completed rollback leaves exactly the previous primary |
| Storage.SnapshotStore.BackUpPrimary | src/storage.rs:149-163 | no new outcome at any step; once done, the backup is the primary if that was read and decoded, else the old backup; a valid backup stays valid |
| Storage.SnapshotStore.ReplacePrimary | src/storage.rs:164-175 | success leaves only the new primary, a plain error only the previous one |
| Storage.SnapshotStore.Save | src/storage.rs:126-182 | however it ends, every file is an old one or the new snapshot, and a later load finds a world it could already have found or, if that can be read back, the new one; after success only the new snapshot, with the previous primary as the backup if it was read and decoded, else the old backup; after an error without a failed rollback the primary is the previous one; without faults it succeeds exactly for savable worlds |
| Storage.SnapshotStore.RestorePrimary | src/storage.rs:217-231 | a completed restore leaves primary and backup equal and durable |
| Storage.SnapshotStore.LoadWithStatus | src/storage.rs:64-124 | with a readable primary the load returns what the files say and no step of it makes another outcome possible; with an unreadable one it returns the backup's world, which then is in both files, or changes nothing if that does not decode; a world it returns is recorded in its file with its root; without faults it succeeds exactly when there is a world |
| Migration.CollectOne | src/migration.rs:56-93 | reads exactly the lists in order whose items are new |
| Migration.Collect | src/migration.rs:45-97 | succeeds exactly when every list is in order and no item is claimed twice |
| Migration.ApplyMove | src/migration.rs:12-30 | one actor's turn, loop included |
| Migration.ApplyMoves | src/migration.rs:12-30 | all turns give exactly the migrated entities and inventories |
| Migration.MigrateLegacyInventories | src/migration.rs:5-43 | all or nothing: the specified migrated world, or no change |
| Migration.MigratingTwice | src/migration.rs:6-9 | a second migration changes nothing |
| Migration.ItemsArrive | src/migration.rs:19-29 | every legacy item ends in its claimant's inventory and location and in no other inventory |
| Migration.OnlyIndexMoves | src/migration.rs:31-34 | the head rises by one exactly when some actor was migrated; the rest of the world stays |
| Migration.UnclaimedStay | src/migration.rs:12-30 | unclaimed entities stay; a migrated actor loses only its list |
| Migration.InventoriesGrow | src/migration.rs:19-23 | what an inventory held it still holds |
| Migration.CollectableIff | src/migration.rs:45-97 | the old lists can be collected exactly if each is an array of numbers of existing items, each once, and no two name the same item |
| Migration.ArrivesInOrder | src/migration.rs:19-23 | what an inventory misses goes behind what it holds, in the order of the list |
| Migration.MigratesIff | src/migration.rs:5-43 | exactly which worlds are migrated, and which are left alone |
| Startup.BootedIsStable | src/main.rs:121-166 | starting on what a start saved reaches the same world |
| Startup.LoadWorld | src/main.rs:121-166 | with a readable primary or without: every interruption leaves only files it found or wrote, and worlds that were there before or boot to this start's goal; once it runs the files hold exactly the goal's world; without faults it succeeds exactly when there is a world to reach; where it has to write a world that cannot be read back, the files and the world reached |
| Startup.StartsConverge | src/main.rs:121-166 | any number of interrupted starts lead to the first one's world or to that of the backup it found, as long as these can be read back; to the former if no primary was unreadable |
| Service.ApplyWrite | src/rpc.rs:813-1070 | each writing call has exactly its specified effect in memory |
| Service.AppState.MutateAndSave | src/rpc.rs:778-805 | memory changes only to a durable world, else it is put back |
| Service.AppState.PublishNewEvents | src/rpc.rs:807-811 | broadcasts exactly the new events, in order |
| Service.AppState.Handle | src/rpc.rs:872-880 | a whole write is one step of the server |
| Service.AppState.SubmitTransaction | src/rpc.rs:859-881 | the same, with the refusal of accounts without keys |
| Service.WriteExtends | src/rpc.rs:872-878 | a write that may be saved extends log and receipts and keeps the receipt book |
| Service.WriteTellsAll | src/rpc.rs:807-811 | what was broadcast since some event stays exactly the log since then |
| Service.WriteAnswersAll | src/rpc.rs:872-880 | every receipt that is stored was answered |
| Service.WriteIsSound | src/rpc.rs:778-811 | a write of a world that can be read back, however its save ends, keeps every promise |
| Service.RestartIsSound | src/main.rs:121-166 | so does a crash with a restart |
| Service.FailedStartIsSound | src/main.rs:121-166 | so does a start that fails or is interrupted |
| Service.FirstStartIsSound | src/storage.rs:80-87 | a server on an empty directory starts sound |
| Service.AcknowledgedIsDurable | src/rpc.rs:778-811 | over whole runs with failed saves, crashes and every kind of start, in which whatever is saved can be read back: every receipt answered and event broadcast is in every world a later load can find, as long as no start in between met an unreadable primary; a start on any of them succeeds; memory is exactly what a load would return unless a rollback failed |
| Service.FallbackIsSound | src/storage.rs:89-123 | a start on the backup, cut to the promises that world holds, keeps every promise left |
| Service.FailedFallbackIsSound | src/storage.rs:89-123 | so does one that fails or is interrupted |
| Service.CutKeeps | src/storage.rs:89-123 | what is left are exactly the receipts and events the backup's world holds |
| Service.FallbackLosesLastWrite | src/storage.rs:149-163 | from every sound server: after a stored write that backed up the previous primary, an unreadable start reaches exactly the world before it, and of all receipts answered and events broadcast keeps exactly those from before the write |
| Service.StartServer | src/main.rs:121-166 | a start as it runs, on any files a crash could leave, is one of those steps |
| Service.StoredIsSoundIff | src/storage.rs:126-182 | from every sound server: after a stored write that backed up the previous primary every promise is kept if and only if the world written can be read back |
| Service.UnreadWritesAreLost | src/storage.rs:149-163 | after any number of stored and answered writes whose files do not decode, every load finds the world before the first, and exactly the promises from before it are left |
| DeepData.StoredDataParsesIff | src/runtime.rs:706-736 | whatever value an actor stores in its own data passes validation and save; the file saved can be parsed if and only if the value nests at most 122 levels, and never decodes otherwise |
| DeepData.DeepWriteIsUnread | src/storage.rs:257 | so a stored write of a deeper value is one of those that are lost |
| Limiter.CheckIsSound | src/rpc.rs:57-91 | the table never exceeds 10,000 buckets, keeps the shared one, and tokens stay within capacity |
| Limiter.RateLimiter.Admit | src/rpc.rs:57-91 | the in-place check is the specified one and keeps the table sound |
| Limiter.PruningIsInvisible | src/rpc.rs:59-64 | pruning never changes any client's token level |
| Limiter.CheckCharges | src/rpc.rs:66-90 | a request is admitted exactly when its bucket holds a token, costs one, and touches no other bucket |
| Limiter.TokensConserved | src/rpc.rs:78-90 | admitted requests plus what is left never exceed the start level plus the refill |
| Limiter.WindowBound | src/rpc.rs:78-90 | in any window a bucket admits at most its capacity plus capacity times the seconds |
| Limiter.WaitingIsEnough | src/rpc.rs:84-87 | waiting the announced delay admits the next request if nobody else used the bucket |
| Limiter.WaitIsShortest | src/rpc.rs:84-87 | the announced delay is the shortest in whole milliseconds |
| Limiter.OwnBucket | src/rpc.rs:66-77 | a client pays from its own bucket while there is one or room for one, else from the shared one |
| Limiter.PrunedExactly | src/rpc.rs:59-64 | once a minute exactly the buckets idle for ten minutes go |
| Limiter.SteadyRequestAdmitted | src/rpc.rs:78-90 | a request a token's time after the last refill finds a token |
| EventStream.PageIsNextStretch | src/rpc.rs:949-966 | on an exact log a page is the next stretch of ids after the cursor, with `next` and `latest` |
| EventStream.PageHasIds | web/src/main.ts:357-358 | the client's page requests are answered with exactly those ids |
| EventStream.EventClient.RenderEvent | web/src/main.ts:299-315 | the handler has the specified effect on cursor, rows and remembered ids |
| EventStream.EventClient.RecoverEvents | web/src/main.ts:327-345 | starts a recovery from the cursor, or joins the one in flight |
| EventStream.EventClient.RecoverOnOpen | web/src/main.ts:346-352 | a new socket starts a recovery, or waits for the one in flight |
| EventStream.EventClient.OnMessage | web/src/main.ts:316-326 | likewise for a live event: refused if it does not parse, else rendered, buffered or an overflow |
| EventStream.EventClient.OnPage | web/src/main.ts:357-370 | likewise for one answered page, with the stale-cursor reset |
| EventStream.EventClient.FinishRecovery | web/src/main.ts:331-342 | likewise for the end of a recovery: flush, or clear and close on overflow or failure |
| EventStream.EventClient.SettleRecovery | web/src/main.ts:346-352 | the same with the waiting socket's own recovery started afterwards |
| EventStream.StepIsSound | web/src/main.ts:299-372 | an interleaved step, with failures, lag messages and reconnections during a recovery and live events that do not parse, keeps screen, buffer and socket in line if and only if it is harmless, which is decided before the step |
| EventStream.EveryRunIsGapFree | web/src/main.ts:299-372 | over every run of harmless steps the client shows each id once, in order and without a gap, from its start cursor or from 1 after a reset; remembered ids are at or below the cursor |
| EventStream.CaughtUp | web/src/main.ts:353 | in every sound state, and harmless steps keep to those: a connected client that has received all live events has shown the whole log |
| EventStream.UsuallyHarmless | web/src/main.ts:316-353 | only a failure, a lag message during a recovery, a live event while a reconnected socket waits, and one that does not parse can do harm |
| EventStream.FailedRecoveryLosesEvents | web/src/main.ts:331-342 | from every sound state in which a failure is not harmless, the run after it can be continued to a loss |
| EventStream.LagDuringRecoveryLosesEvents | web/src/main.ts:327-345 | the same of a lag message that meets a recovery in flight |
| EventStream.ReconnectionLosesEvents | web/src/main.ts:346-352 | the same of a live event that meets a socket waiting for the old recovery |
| EventStream.RefusedEventIsLost | web/src/main.ts:316-326 | the same of a live event that does not parse |
| EventStream.HarmfulStepsOccur | web/src/main.ts:316-353 | all four are met in short runs from a fresh start |
| LiveEvents.EventAppends | src/rpc.rs:807-811 | each committed event is the stream's next, refused exactly when it does not parse |
| LiveEvents.ObjectEventsParse | web/src/main.ts:316-326 | exactly which events the socket handler accepts |
| LiveEvents.AnyDataIsCommitted | src/runtime.rs:738-778 | from every valid world a script can emit an event with any data whatever: it passes validation and save and is in the log |
| LiveEvents.RefusedEventsOccur | src/model.rs:175-306 | a run from genesis to a valid world whose first event no socket handler accepts |
| LuaTables.ArrayExactly | src/runtime.rs:1033-1045 | a table is taken for an array exactly when its keys are 1..n |
| LuaTables.FillPlaces | src/runtime.rs:1046-1053 | every entry lands in its slot |
| LuaTables.ToLua | src/runtime.rs:991-1016 | builds a faithful Lua value, in whatever order members are set |
| LuaTables.LuaRoundTrip | src/runtime.rs:991-1073 | a value comes back unchanged exactly when it has no null inside, no empty array and only 64-bit integers; the way back never fails |
| LuaTables.ConvertsIff | src/runtime.rs:1017-1073 | a Lua value converts exactly if it holds no text that is not UTF-8 and no keys but text and integers |
| LuaTables.TableMeans | src/runtime.rs:1024-1068 | a table becomes an array exactly if its keys are 1..n, each entry in its slot; else an object with a member for whatever its keys are called, integers in decimal, the last entry winning |

## Left out

- The Lua machine, its instruction and memory hooks and the ledger's sandboxed globals: a
  deterministic function stands for them.
- Narration and the values host calls return to a script, beyond success or refusal.
- BLAKE3, Ed25519, hex decoding beyond its shape, key storage: functions and predicates.
- serde: the reading and printing of worlds and snapshots, beyond how deep they nest and that
  floats may read back changed; floating point is real arithmetic in the limiter and opaque
  elsewhere. Data nested so deep that a process runs out of stack.
- Which of several errors is reported first, and error texts.
- u64 counter overflow outside the checked additions, and the truncation of a deployed version
  number to 32 bits by the RPC layer.
- Lone surrogates in JavaScript strings: strings are sequences of Unicode scalars on both sides.
- Metadata queries on files are taken to succeed; network file systems and corruption from
  outside, other than as the starting files, are not modelled.
- HTTP routing, CORS, metrics, logging, WebSocket transport, DOM code, identities, endpoint
  switching, demo content, deployment files.
- Read-only RPC calls other than event paging.
- EventStream.EveryRunIsGapFree: covers runs of harmless steps; from every other step events can
  be lost. A server restart that shortens its log, and switching to another server, are not steps.
- Service.WriteIsSound: covers writes of worlds that can be read back; `Service.StoredIsSoundIff`
  shows that others break the promise.
- Startup.StartsConverge: covers worlds that can be read back, for the same reason.
- Service.AcknowledgedIsDurable: covers runs in which whatever is saved can be read back. A start
  that meets an unreadable primary may lose promises, those that its backup does not hold; runs
  start from a server whose decodable files boot to worlds with an exact receipt book, as one on an
  empty directory does.
