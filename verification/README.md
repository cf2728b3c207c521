# AlphaForge verification models

Dafny models of the parts of AlphaForge whose correctness depends on many steps together, with
proofs about every input, every interleaving or every reachable state.
`dafny verify dfyconfig.toml` checks all of it. No proof uses an induction that Dafny finds by itself.

**The chain indexer.** `ChainIndex` is what the store keeps for one contract: a stack of canonical
blocks with their events, a checkpoint row, a fencing lease and the projections. Each
`BEGIN IMMEDIATE … COMMIT` of the store is one function on it. `ChainStore` is the class with the
tables; its methods are proved to have exactly the effect of those functions, through the row
encodings (`ChainTables`), the event order (`EventOrder`) and the canonical JSON behind the
fingerprints (`Json`). `SyncRuns` lets any number of sync workers, operation trackers and other
saves of operations interleave at every `await` and proves what is served; `SyncHistory` compares
distant points of such a run, and `TrackingAnswers` says case by case what a tracking call answers,
without its turns. `RemoteChain` is the chain that is followed, `ChainSync` one undisturbed synchronization or tracking call against it while
it stays as it is, and `SyncCalls` makes such a call a part of a run. `OperationEvidence` and
`OperationQueue` are the product evidence and the fair choice of operations to track.

**The deployment wallet.** `Wallet` turns chain answers into journal states and proves what a
reconciled journal is worth; `WalletRuns` is every run with crashes, reloads, failing saves,
reorganisations and the stop signal; `WalletReplies` follows the hash that the wallet returned and
`WalletFunds` the account along such a run;
`WalletSession` is the session object, each call of which is a sequence of steps of such a run.

**Risk and permits.** `Risk` evaluates targets against limits, `Replay` issues permits against the
store of consumed nonces.

**The launch plan.** `LaunchPlan` generates the deployment plan, `LaunchLedger` is the
balance and allowance ledger, `LaunchReplay` replays the one on the other, `LaunchOrder` says what
must have happened before each call.

**Keccak-256.** `BigBits` are BigInt's bitwise operators on integers, `KeccakSpec` is FIPS 202 on
bits with its constants derived from Algorithms 2 and 5, `Keccak`, `KeccakHash` and `KeccakSponge`
are the lane code and the sponge, refined against it, `KeccakText` the hexadecimal text around them.

Assumptions, stated once:

- JavaScript turns are atomic: between two `await`s nothing else touches the store, and one process
  uses a store file at a time. A transaction is one step.
- In `RemoteChain`, a block hash stands for one block with one set of logs (`HashDecides`), and each
  remote block sits on the one below it (`RemoteLinked`).
- Hashes and addresses are already in lower case, as every store method makes them.
- The vault and the pass contract have different addresses: `packages/chain-adapter/src/manifest.ts:122-126`
  refuses a manifest in which they do not.
- The durable journal of the wallet is not erased or edited by anyone else, and the browser lock
  keeps a second session away.
- CREATE addresses, the pool and the named accounts of a launch are different addresses, except
  that the proceeds may go to the administrator.

## Model

| member | source | states |
|---|---|---|
| `Json.ParseStable` | apps/server/src/chain-store.ts:240-262 | parsing undoes canonical serialisation, for every value |
| `Json.StableInjective` | apps/server/src/chain-store.ts:240-268 | two serialisations are equal exactly when the values are equal up to key order |
| `Fingerprints.EventFingerprintExact` | apps/server/src/chain-store.ts:282-297 | on one chain, event fingerprints agree exactly on equal events |
| `Fingerprints.PayloadFingerprintExact` | apps/server/src/chain-store.ts:299-311 | payload fingerprints agree exactly on events that differ at most in where they were mined |
| `Operations.TransitionKeepsEvidence` | packages/chain-adapter/src/lifecycle.ts:135-216 | every lifecycle transition keeps the evidence rules, the operation's identity and a known transaction hash |
| `Operations.DisplacedIsTransition` | apps/server/src/chain-store.ts:1677-1684 | the raw SQL rewrite of a rollback is the lifecycle's own reorganisation step and keeps the evidence rules |
| `Operations.CanonicalIsSettled` | apps/server/src/chain-store.ts:97-224 | under the evidence rules exactly the settled states carry the canonical flag, always with a block |
| `ChainIndex.RecordKeeps` | apps/server/src/chain-store.ts:877-1049 | a successful record keeps one gap-free parent-linked chain with the checkpoint at its tip |
| `ChainIndex.RollbackKeeps` | apps/server/src/chain-store.ts:1655-1715 | a rollback keeps the invariant, and the canonical blocks left are exactly those below the height |
| `ChainIndex.CommitKeeps` | apps/server/src/chain-store.ts:1329-1413 | committed projections and the projected checkpoint point at canonical blocks |
| `ChainIndex.ReadIffServed` | apps/server/src/chain-store.ts:1458-1505 | a projection read answers exactly in a served (or empty, unclaimed) store and never finds it corrupt |
| `ChainLog.ListingUnique` | apps/server/src/chain-store.ts:1088-1095 | where positions differ the ordered log of a set of events is unique |
| `ChainLog.BlockLogsMakeLog` | apps/server/src/chain-store.ts:1088-1095 | indexing the blocks one after the other from nothing gives a log of the chain |
| `ChainLog.LogIsBlockLogs` | apps/server/src/chain-store.ts:1088-1095 | every log of the chain is the concatenation of the logs of its blocks |
| `ChainTables.DecodeEncode` | apps/server/src/chain-store.ts:1051-1086 | reading a stored event gives back the event that was stored |
| `ChainTables.CanonicalSetIsChain` | apps/server/src/chain-store.ts:1088-1095 | the canonical event rows of a contract are exactly the events of its canonical blocks, whatever was orphaned or mined again |
| `ChainTables.RecordEvents` | apps/server/src/chain-store.ts:963-1026 | storing a block's events (new, revived or recognised) keeps rows and chain in agreement for every contract |
| `ChainTables.RollEvents` | apps/server/src/chain-store.ts:1672-1676 | the rollback of event rows keeps rows and chain in agreement for every contract |
| `ChainTables.HighestIsTip` | apps/server/src/chain-store.ts:1688-1692 | the canonical row of greatest height is the tip, and there is one exactly when the chain is not empty |
| `ChainTables.RolledKeysCount` | apps/server/src/chain-store.ts:1672-1676 | the event rows that a rollback orphans are as many as the events of the blocks above the cut |
| `EventOrder.SortDistinct` | apps/server/src/chain-store.ts:893-899 | sorting keeps the events and counting identities decides whether they are distinct |
| `EventOrder.CompareBlock` | apps/server/src/chain-store.ts:910-933 | a block offered again passes only with the same set of events, and always does when positions differ |
| `EventOrder.StoreEvents` | apps/server/src/chain-store.ts:963-1026 | the loop succeeds exactly when no event meets a row that says something else, and counts the events inserted or revived |
| `ChainStore.BlockFaultIff` | apps/server/src/chain-store.ts:887-899 | no refusal exactly for well-formed blocks, events and targets |
| `ChainStore.ChainStore.constructor` | apps/server/src/chain-store.ts:377-400 | a new store is valid and empty for every contract |
| `ChainStore.ChainStore.CanonicalBlock` | apps/server/src/chain-store.ts:860-875 | the block of the chain at a height, or nothing |
| `ChainStore.ChainStore.CanonicalEvents` | apps/server/src/chain-store.ts:1088-1095 | the full ordered event log of the current chain |
| `ChainStore.ChainStore.Projection` | apps/server/src/chain-store.ts:1415-1505 | the answer of the abstract read, fault for fault |
| `ChainStore.ChainStore.ClaimSync` | apps/server/src/chain-store.ts:591-643 | the lease passes to the claimant unless its target is behind; other contracts untouched |
| `ChainStore.ChainStore.MarkSyncUnhealthy` | apps/server/src/chain-store.ts:715-762 | the row and lease as the abstract step leaves them, or the fault and no change |
| `ChainStore.ChainStore.MarkSyncHealthy` | apps/server/src/chain-store.ts:764-802 | healthy only for the owner, at a projected tip at or past the target; otherwise no change |
| `ChainStore.ChainStore.ReleaseSyncIncomplete` | apps/server/src/chain-store.ts:804-839 | the lease is released and the row stays incomplete up to the target |
| `ChainStore.ChainStore.RecordCanonicalBlock` | apps/server/src/chain-store.ts:877-1049 | succeeds exactly for the owner's extension without conflict or the same tip again; a refusal changes nothing; the same tip again inserts nothing; the faults in order |
| `ChainStore.ChainStore.RollbackFromBlock` | apps/server/src/chain-store.ts:1655-1715 | truncates the chain, clears projections, and reports exactly how many blocks, events, operations and projections changed; where the operations are well evidenced on the chain, exactly the canonical ones of this contract whose block is gone become reorganised, and every other row is as before |
| `ChainStore.ChainStore.CheckProjections` | apps/server/src/chain-store.ts:1349-1365 | no fault exactly for projections of this contract, at canonical blocks, with distinct keys; otherwise the fault of the first projection that is refused |
| `ChainStore.ChainStore.CommitProjections` | apps/server/src/chain-store.ts:1329-1413 | succeeds exactly for the owner at the current checkpoint with valid projections, replacing all of them; otherwise the first check that fails names the fault |
| `ChainStore.ChainStore.SaveOperation` | apps/server/src/chain-store.ts:1097-1155 | saves exactly well-evidenced operations that fit their stored identity and the unique transaction index; otherwise the fault of the first failing check |
| `ChainStore.ChainStore.SaveOperationAtCheckpoint` | apps/server/src/chain-store.ts:1270-1327 | saves exactly when both the served checkpoint and the stored operation are the expected ones; otherwise the fault of the first failing check |
| `Tracking.SaveKeeps` | apps/server/src/chain-store.ts:1097-1155 | a save keeps every operation well evidenced and every canonical one on a canonical block |
| `Tracking.DisplaceKeeps` | apps/server/src/chain-store.ts:1677-1684 | so does a rollback, with the shorter chain |
| `Tracking.RollbackMovesOrphans` | apps/server/src/chain-store.ts:1677-1684 | a rollback keeps every id; a row changes exactly when it was canonical, of this contract and its block is no longer in the chain, and then by the lifecycle's reorganisation |
| `Tracking.RollbackIsNotOverwritten` | apps/server/src/chain-store.ts:1318-1321 | after a rollback displaced an operation, nothing computed from its earlier row can be saved |
| `SyncRuns.Fenced` | apps/server/src/chain-store.ts:583-589 | a turn of a worker without the lease changes neither the store nor any operation |
| `SyncRuns.WorkMovesOrphans` | apps/server/src/chain-sync.ts:110-333 | every step of a sync worker in every run moves exactly the operations whose block it takes off the chain |
| `SyncRuns.StepKeeps` | apps/server/src/chain-sync.ts:110-333 | every step of every worker, tracker or other save of an operation keeps the invariant of the interleaved system |
| `SyncRuns.RunKeeps` | apps/server/src/chain-sync.ts:225-333 | the invariant holds at every point of every run |
| `SyncRuns.ServedIsCurrent` | apps/server/src/chain-sync.ts:177-333 | whenever a projection is served, the projections are what the integration rebuilt for the current checkpoint block and the full current log |
| `SyncRuns.OnlyCompletionServes` | apps/server/src/chain-store.ts:764-802 | only the end of a round whose tip reached its target with the projection at the tip makes the store serve |
| `SyncRuns.ClaimHidesUntilCompletion` | apps/server/src/chain-store.ts:591-643 | from a claim on, nothing is served until some round completes |
| `SyncRuns.HeldRoundSucceeds` | apps/server/src/chain-sync.ts:321-332 | a round that still holds its lease at the end passes the final health check |
| `SyncRuns.ReachableStore` | apps/server/src/chain-store.ts:877-1049 | every reachable store is one linked chain with its checkpoint at the tip, and every operation on it is well evidenced |
| `SyncRuns.TrackKeeps` | apps/server/src/chain-sync.ts:335-440 | every turn of an operation tracker keeps the operations well evidenced on the chain |
| `SyncRuns.ReceiptIsRecorded` | apps/server/src/chain-sync.ts:361-401 | a receipt is stored with its own block and outcome, and only while that block is canonical |
| `SyncRuns.DepthIsRecorded` | apps/server/src/chain-sync.ts:427-440 | a matched operation records exactly its depth, and is confirmed exactly at the soft-ready depth |
| `TrackingAnswers.CallAnswers` | apps/server/src/chain-sync.ts:361-440 | the turns of a tracking call on a served store give the answers listed case by case: nothing without a canonical receipt, mined or reverted in its block, reconciliation failed with the error of the verdict, confirming or confirmed by depth |
| `TrackingAnswers.TrackableIffCanChange` | apps/server/src/chain-store.ts:1229-1268 | some answer of the chain makes a tracking call change an operation exactly when it is trackable; one whose reconciliation failed, exactly when moreover its depth can be reached and its transaction is not another's |
| `SyncHistory.StepKeepsIdentity` | apps/server/src/chain-store.ts:1097-1112 | every step keeps every operation and its identity, and a known transaction hash exactly unless the step is a save of that operation without one |
| `SyncHistory.IdentityIsForever` | apps/server/src/chain-store.ts:1097-1112 | between any two points of a run an operation keeps its identity, and its known hash if no save without one came between |
| `SyncHistory.HashCanBeForgotten` | apps/server/src/chain-store.ts:1097-1112 | without that condition it is false: a submitted operation can be saved again as awaiting its signature, without its hash |
| `SyncHistory.TargetsNeverFall` | apps/server/src/chain-store.ts:591-643 | along a run the target of a later claim is not below that of an earlier one, unless between them a round completed or gave up on a reorganisation |
| `RemoteChain.AgreesIffCommon` | apps/server/src/chain-sync.ts:110-134 | hashes agree at a height exactly within the longest common prefix |
| `ChainSync.ChainSynchronizer.SearchAncestor` | apps/server/src/chain-sync.ts:117-141 | the search finds the tip of the common prefix exactly when it is within the limit and not below deployment |
| `ChainSync.ChainSynchronizer.RewindIfNeeded` | apps/server/src/chain-sync.ts:110-150 | result and store are those of the rewind specification |
| `RemoteChain.RewindKeepsCommonPrefix` | apps/server/src/chain-sync.ts:110-150 | the owner's rewind keeps exactly the longest common prefix, or reports the right one of the two reorganisation faults |
| `ChainSync.ChainSynchronizer.RebuildProjection` | apps/server/src/chain-sync.ts:177-195 | a rebuild commits exactly what the integration gives for the block and the full log, where that can be committed, and otherwise changes nothing |
| `ChainSync.ChainSynchronizer.IndexBlock` | apps/server/src/chain-sync.ts:281-320 | one turn of the block loop extends the chain by the remote block, or leaves the chain as it was; it is three turns of a worker |
| `ChainSync.ChainSynchronizer.SyncTo` | apps/server/src/chain-sync.ts:247-333 | success leaves the remote chain from deployment to at least the head, serves exactly when head is the target, and reports exact counts; from its claim on the call is a sequence of turns of one worker of `SyncRuns`; it succeeds when nothing stands in its way (`Clear`) |
| `ChainSync.ChainSynchronizer.SyncInRun` | apps/server/src/chain-sync.ts:247-333 | from a store that any run led to, a call with a new token leaves a store that a longer run leads to, so what is then served is what the integration rebuilt for the current tip and log |
| `ChainSync.ChainSynchronizer.SyncBounded` | apps/server/src/m3-chain-runtime.ts:255-272 | a bounded round reports caught-up exactly when the store then serves, and otherwise has advanced by exactly the bound |
| `ChainSync.ChainSynchronizer.TrackOperation` | apps/server/src/chain-sync.ts:335-440 | a tracking call is a sequence of turns of one tracker that ends closed, and returns the operation as it is then stored; on a served store at `latest` it stores and returns exactly what `TrackingAnswers.Answered` lists for the receipt and the verdict |
| `ChainSync.ChainSynchronizer.TrackInRun` | apps/server/src/chain-sync.ts:335-440 | from a store that any run led to it leaves a store that a longer run leads to, with every operation well evidenced |
| `SyncCalls.TrackingContinuesRun` | apps/server/src/chain-sync.ts:335-440 | the turns of one undisturbed tracking call continue every run |
| `SyncCalls.CallContinuesRun` | apps/server/src/chain-sync.ts:225-333 | the turns of one undisturbed call continue every run in which its token is new, and the run's invariant holds after it |
| `RemoteChain.EventsFit` | apps/server/src/chain-store.ts:963-1026 | the events of the next remote block meet no conflicting row when stored rows of the same identities have their payloads |
| `RemoteChain.FitsAfterStore` | apps/server/src/chain-store.ts:963-1026 | and recording a block keeps that so for every other height |
| `RemoteChain.BoundedRoundFits` | apps/server/src/m3-chain-runtime.ts:260-267 | a bounded round without a reorganisation is always within its range, one with a reorganisation exactly when undone and new blocks together are |
| `RemoteChain.FollowsAtEveryHeight` | apps/server/src/chain-sync.ts:281-332 | such a chain has the remote block and events at every height |
| `OperationEvidence.Walk` | apps/server/src/chain-store.ts:1565-1597 | the block loop answers yes exactly when the selected rows are a path that contains the projection |
| `OperationEvidence.WalkIsAncestry` | apps/server/src/chain-store.ts:1565-1597 | that is: parent hashes lead from the checkpoint through the projection down to the operation |
| `OperationEvidence.CheckAncestry` | apps/server/src/chain-store.ts:1550-1599 | on the store's rows this is membership of the three blocks in the chain |
| `OperationEvidence.ReadEvidence` | apps/server/src/chain-store.ts:1507-1653 | the whole evidence record, field by field, or the projection's fault |
| `OperationEvidence.FlagDecides` | apps/server/src/chain-store.ts:1539-1554 | under the store invariants the canonical flag, the heights and the span decide the walk |
| `OperationEvidence.ReadyMeansServed` | apps/server/src/chain-store.ts:1640-1645 | product-ready exactly for a confirmed, reconciled operation on the served chain with a projection in span |
| `OperationEvidence.EvidenceIsConsistent` | apps/server/src/chain-store.ts:1515-1646 | the fields of one record never contradict each other, and each follows from state, health and chain |
| `OperationEvidence.ChainStatusMeans` | apps/server/src/chain-store.ts:1515-1646 | each chain status exactly for what the operation carries: receipt, canonical flag, error and time of confirmation |
| `OperationQueue.TrackableOperationIds` | apps/server/src/chain-store.ts:1229-1268 | the start of the rotation of the trackable ids from the cursor, or the fault |
| `OperationQueue.RotationLists` | apps/server/src/chain-store.ts:1244-1266 | the rotation lists every id once, in cyclic order from the cursor |
| `OperationQueue.Interleave` | apps/server/src/m3-chain-runtime.ts:309-328 | a prefix of each queue, up to a hundred in all, at least fifty of each where there are as many |
| `OperationQueue.OperationTracker.TrackAll` | apps/server/src/m3-chain-runtime.ts:329-343 | failures are counted and both cursors move to the last id visited all the same |
| `OperationQueue.OperationTracker.TrackRound` | apps/server/src/m3-chain-runtime.ts:295-344 | every round is fair to both queues whatever fails |
| `OperationQueue.RankAfterRound` | apps/server/src/m3-chain-runtime.ts:342-343 | after a round every unvisited id has moved up by the number visited |
| `OperationQueue.EveryIdIsVisited` | apps/server/src/m3-chain-runtime.ts:295-344 | while the set does not grow every id is visited within the first ceil(N / 50) rounds |
| `OperationQueue.OperationTracker.TrackRounds` | apps/server/src/m3-chain-runtime.ts:295-344 | rounds of the tracker one after the other are such rounds, so every id that stays in a queue is among the items of one of the first ceil(N / 50) |
| `Wallet.ConfirmedIffProved` | apps/web/src/deployment-wallet.ts:726-793 | CONFIRMED exactly for the plan's own transaction, successful and two blocks deep on the canonical chain |
| `Wallet.ObservedIff` | apps/web/src/deployment-wallet.ts:726-793 | each other outcome (unknown, submitted, reverted, reorganised, included) exactly for its own answers of the chain |
| `Wallet.ObserveIgnoresSaved` | apps/web/src/deployment-wallet.ts:726-793 | nothing saved about an outcome influences an observation |
| `Wallet.ReconcileLoop` | apps/web/src/deployment-wallet.ts:794-806 | the nested loops compute the reconciliation |
| `Wallet.Reconciled` | apps/web/src/deployment-wallet.ts:794-806 | the result is CONFIRMED*, then at most one unresolved entry, then UNKNOWN* |
| `Wallet.ReconcileKeepsJournal` | apps/web/src/deployment-wallet.ts:458-492 | reconciling keeps the journal valid and every hash and fee |
| `Wallet.SavedStatesDoNotMatter` | apps/web/src/deployment-wallet.ts:794-806 | journals that agree on hashes and fees reconcile to the same states and the same confirmed entries |
| `Wallet.ReconciledReceipts` | apps/web/src/deployment-wallet.ts:440-452 | receipts exported after a reconciliation are 41 distinct hashes, the i-th of nonce i and action i |
| `Wallet.BackedProvesPlan` | apps/web/src/deployment-wallet.ts:440-452 | receipts of a journal that the chain backs prove the whole plan |
| `Wallet.LoadedReceiptsProveNothing` | apps/web/src/deployment-wallet.ts:440-452 | without a reconciliation this is false: a forged journal is accepted and exports one hash 41 times, which no chain backs |
| `Wallet.ReceiptsBackedIff` | apps/web/src/deployment-wallet.ts:440-452 | receipts read from a journal are backed by the chain, entry by entry under the exported hash, exactly when reconciling the journal leaves it fully confirmed |
| `Wallet.ConfirmedIffAllProved` | apps/web/src/deployment-wallet.ts:440-452 | reconciling leaves a journal fully confirmed exactly when the same answers prove every entry |
| `Wallet.GasGuardsNeverFire` | apps/web/src/deployment-wallet.ts:808-813 | after a reconciliation of a valid plan neither total-gas guard can fire |
| `Wallet.FundingHolds` | apps/web/src/deployment-wallet.ts:861-871 | once the funding check passes it passes at every later step and the retained minimum is left at the end |
| `WalletFunds.OffersStayFunded` | apps/web/src/deployment-wallet.ts:605-668 | along every run, from the first offer on the account pays at every point for all that is left of the plan and the retained minimum stays |
| `WalletRuns.StepKeeps` | apps/web/src/deployment-wallet.ts:493-502 | every step of a run keeps each offered index in memory and in the durable journal |
| `WalletRuns.GasLimitCovers` | apps/web/src/deployment-wallet.ts:898-902 | the gas limit is the estimate and a fifth, rounded up, or the budget's cap |
| `WalletRuns.NoIndexPromptedTwice` | apps/web/src/deployment-wallet.ts:825-974 | over every run each index is offered to the wallet at most once, and there are at most 41 offers |
| `WalletRuns.PromptNeedsProof` | apps/web/src/deployment-wallet.ts:903-916 | an index is offered only when a named reconciliation step, which took place, proved every earlier entry with its own chain answers, nothing changed since, the intent is durable and no stop was given |
| `WalletRuns.NoPromptAfterStop` | apps/web/src/deployment-runner.ts:67-120 | after the stop signal nothing is offered until a new run starts |
| `WalletReplies.ReplyIsRecorded` | apps/web/src/deployment-wallet.ts:916-943 | a reply of the wallet changes the offered entry alone, in storage and in memory as the save allows: submitted under the returned hash, and the runner then waits for it; without a hash unknown, and the runner asks for recovery |
| `WalletReplies.RecoveryIsRecorded` | apps/web/src/deployment-wallet.ts:951-974 | a recovery changes the next entry alone, to what the chain shows for the given hash, or nothing |
| `WalletReplies.ReturnedHashStays` | apps/web/src/deployment-wallet.ts:916-974 | along every run a returned and saved hash stays in storage and in every session until a recovery of that entry; where the runner waits for it, it waits for that hash |
| `WalletRuns.DecisionIsRight` | apps/web/src/deployment-runner.ts:74-118 | the runner completes exactly when receipts can be exported, sends exactly when all entries so far are confirmed, waits exactly for the hash of a submitted or included next entry, and otherwise asks for recovery |
| `WalletSession.DeploymentWalletSession.Persist` | apps/web/src/deployment-wallet.ts:493-502 | memory follows storage only when the save succeeded |
| `WalletSession.DeploymentWalletSession.Reconcile` | apps/web/src/deployment-wallet.ts:794-814 | the session's reconciliation is the reconciliation step of a run |
| `WalletSession.DeploymentWalletSession.SendNext` | apps/web/src/deployment-wallet.ts:825-949 | one call is one sequence of steps of a run, offers at most one index and ends idle; when it offered one and the reply was saved, both journals hold that entry with the returned hash |
| `WalletSession.DeploymentWalletSession.RecoverCall` | apps/web/src/deployment-wallet.ts:951-974 | a recovery is a sequence of steps without an offer |
| `WalletSession.RunContinues` | apps/web/src/deployment-wallet.ts:825-974 | the steps of calls continue a run, so the results about runs hold of sessions |
| `Risk.GrossNotional` | src/security-model/index.ts:474-478 | the sum of absolute positions, in whatever order the map is walked |
| `Risk.EvaluateRisk` | src/security-model/index.ts:399-462 | accepts exactly when the order-free acceptance predicate holds, with the orders to the targets, and otherwise names the first check that fails |
| `Risk.OrdersReachTargets` | src/security-model/index.ts:434-440 | executing the orders gives every targeted instrument its target and leaves the others alone |
| `Risk.AcceptedWithinLimits` | src/security-model/index.ts:419-451 | executing an accepted decision keeps the position, order, gross and leverage limits, and in loss mode strictly lowers the gross notional |
| `Risk.LossModeOnlyReduces` | src/security-model/index.ts:453-472 | in loss mode every order moves its position toward zero and not past it |
| `Risk.LossModeAcceptsIff` | src/security-model/index.ts:453-472 | in loss mode, with the other limits met, a decision is accepted exactly when it places an order and every target lies between zero and its position |
| `Risk.ReductionLowersGross` | src/security-model/index.ts:464-478 | a reduction-only decision lowers the gross notional strictly exactly when it places an order |
| `Risk.KillSwitchMeans` | src/security-model/index.ts:453-459 | so in loss mode the gross comparison asks for nothing more than one order |
| `Risk.TargetOrderDoesNotMatter` | src/security-model/index.ts:419-440 | neither acceptance nor the resulting portfolio depends on the order of the targets |
| `Replay.MemoryReplayStore.Consume` | src/security-model/index.ts:145-163 | forgets exactly what expired before now, and accepts exactly unknown keys |
| `Replay.IssueExecutionPermit` | src/security-model/index.ts:218-286 | a permit exactly for an admissible request with a fresh nonce, which is consumed last |
| `Replay.PermitWindow` | src/security-model/index.ts:254-259 | a permit's window is not empty, lies inside decision, grant and the grant's permit lifetime, and ends at one of these three bounds |
| `Replay.OneDecisionOnePermit` | src/security-model/index.ts:145-163 | with a clock that does not go back, one decision yields at most one permit over every run |
| `Replay.PermitIff` | src/security-model/index.ts:218-286 | over every run with such a clock a request gets a permit exactly when it is admissible and no earlier permit took its key in a decision that has not expired |
| `Replay.FreshNonceGetsPermit` | src/security-model/index.ts:246-252 | so among requests of one grant and release exactly when its nonce was not taken by such a permit |
| `Replay.KeysMeetIff` | src/security-model/index.ts:158-158 | two keys are equal exactly for equal scope and nonce, or where the longer scope continues the shorter one by what its nonce then begins with |
| `Replay.PlainKeysAreExact` | src/security-model/index.ts:158-158 | where releases and nonces hold no colon a key stands for one grant, release and nonce |
| `Replay.NoGapAtExpiry` | src/security-model/index.ts:359-369 | at its expiry instant a nonce is still kept and its decision already refused |
| `LaunchPlan.PrepareDeployment` | tools/launch-market/prepare.ts:44-321 | the plan for admitted inputs, the guard's fault otherwise |
| `LaunchReplay.PlanSigns` | tools/launch-market/prepare.ts:189-335 | 43 lines of which 41 are signed, the deploys first with consecutive nonces |
| `LaunchOrder.NamedIsDeployed` | tools/launch-market/prepare.ts:189-321 | every contract that a signed action names is deployed at an earlier index, once and under the nonce of that index |
| `LaunchOrder.ClaimsOpenFunded` | tools/launch-market/prepare.ts:312-314 | the claims open once, and the replay of what comes before leaves the claim reserve its cash |
| `LaunchOrder.MintOpensFunded` | tools/launch-market/prepare.ts:315-321 | the mint opens once, as the last action, and the replay of what comes before leaves the launch contract its passes and pool cash |
| `LaunchOrder.RoutersBeforeFunds` | tools/launch-market/prepare.ts:306-310 | both routers are authorised and the trading router is set before the conversion reserve is first funded |
| `LaunchOrder.InitializersBeforePools` | tools/launch-market/prepare.ts:304-319 | every pool is created after the two initializers were configured |
| `LaunchLedger.LedgerReplay.Movement` | tools/launch-market/wallet-deployment-verify.ts:403-419 | a movement, refused exactly when the sender lacks the amount |
| `LaunchLedger.LedgerReplay.Consume` | tools/launch-market/wallet-deployment-verify.ts:422-427 | an allowance is used, refused exactly when it is short |
| `LaunchLedger.LedgerReplay.ReplayAll` | tools/launch-market/wallet-deployment-verify.ts:583-765 | the loop over the actions computes the replay |
| `LaunchLedger.StepConserves` | tools/launch-market/wallet-deployment-verify.ts:403-427 | no action but a mint changes the total of any token |
| `LaunchLedger.SupplyIsConserved` | tools/launch-market/wallet-deployment-verify.ts:457-457 | in any replay the holders of a token minted at most once own together exactly its supply |
| `LaunchReplay.ReplaySucceeds` | tools/launch-market/wallet-deployment-verify.ts:583-791 | for every admitted input no ledger fault, exactly the planned balances and native reserve, no allowance left, the administrator with supply minus the required amount |
| `LaunchReplay.EveryStepConserves` | tools/launch-market/wallet-deployment-verify.ts:583-765 | each token's supply is conserved after every one of the 41 actions |
| `KeccakSpec.RotationsAreOffsets` | apps/web/src/evm-keccak.ts:10-12 | the rotation table is Algorithm 2 of FIPS 202 |
| `Keccak.ConstantBits` | apps/web/src/evm-keccak.ts:13-38 | the round constants are Algorithm 5 of FIPS 202, bit by bit |
| `Keccak.RotateLeftBits` | apps/web/src/evm-keccak.ts:40-44 | a rotation of 64 bits that gives a 64-bit lane |
| `Keccak.LaneAndNot` | apps/web/src/evm-keccak.ts:62-65 | what the negative complement masks is a 64-bit lane again |
| `Keccak.ThetaRefines` | apps/web/src/evm-keccak.ts:50-55 | the column step is theta |
| `Keccak.MixedRefines` | apps/web/src/evm-keccak.ts:56-61 | the rotation and placement step is rho followed by pi |
| `Keccak.ChiRefines` | apps/web/src/evm-keccak.ts:62-65 | the row step is chi |
| `Keccak.IotaRefines` | apps/web/src/evm-keccak.ts:66-66 | the constant step is iota |
| `Keccak.RoundsRefine` | apps/web/src/evm-keccak.ts:46-69 | any number of rounds on lanes are those of FIPS 202, all integers staying in [0, 2^64) |
| `KeccakHash.Permutation` | apps/web/src/evm-keccak.ts:46-69 | the in-place loops compute the 24 rounds |
| `KeccakHash.PermutedIsKeccakF` | apps/web/src/evm-keccak.ts:46-69 | which are KECCAK-f[1600] |
| `KeccakSponge.PaddingIsPad10star1` | apps/web/src/evm-keccak.ts:79-84 | the padded bytes are the message and pad10*1, with no domain suffix |
| `KeccakSponge.PaddingIsInjective` | apps/web/src/evm-keccak.ts:79-84 | different messages of any lengths are padded differently |
| `KeccakSponge.SpongeRefines` | apps/web/src/evm-keccak.ts:86-95 | the state after each block is the sponge's |
| `KeccakSponge.Keccak256` | apps/web/src/evm-keccak.ts:78-101 | the 32 output bytes are the first 256 bits of the sponge over the padded message |
| `KeccakText.ReadWritten` | apps/web/src/evm-keccak.ts:70-76 | reading hexadecimal text that was written gives the bytes back |
| `KeccakText.SameBytesIff` | apps/web/src/evm-keccak.ts:70-76 | two texts have the same bytes exactly when they differ at most in the case of their digits |
| `KeccakText.Keccak256Evm` | apps/web/src/evm-keccak.ts:70-101 | exactly hexadecimal data is hashed, to 64 lower-case digits that are the first 256 bits of the sponge over its bytes |

## Left out

- SQLite itself, opening, migrations and backup: a transaction is one atomic step; ties in `ORDER BY` are left open.
- Text: strings are sequences of Unicode scalar values, so lone surrogates, and the UTF-16 order of keys outside the basic plane, are not modelled; cyclic values, which `stable` refuses, cannot be written as a `Json` value.
- JSON faults: `INVALID_CHAIN_JSON` and `CHAIN_JSON_TOO_LARGE` are not told apart from the invalid event or projection that carries them.
- ChainStore.ChainStore.SaveOperationAtCheckpoint: the expected operation is compared by value and not through its fingerprint, so the size limit of a fingerprint is not modelled.
- ChainStore.ChainStore.Projection: states are records by type, so the read does not check that again.
- ChainSync.ChainSynchronizer.SyncTo: one undisturbed call; what other workers may do in between is the subject of `SyncRuns`; the promise queue of one synchronizer and the chain id it asks for are not modelled.
- EventOrder.CompareBlock: events that share a transaction index and a log index in one block may be read back in another order, so acceptance is promised only for distinct positions.
- SyncRuns.ServedIsCurrent: the integration's answers are any relation between block, log and projections; automata, vault codecs and contracts behind it are not part of this model.
- OperationQueue.OperationTracker.TrackRound: the deployment code check before the queue is not modelled.
- WalletRuns.NoIndexPromptedTwice: the calls a user or the sequence runner makes are arbitrary; the runner's waiting times and timeouts, head age, gas price, code and nonce reads appear only as checks that pass or fail.
- WalletFunds.OffersStayFunded: the account is read in the turn that opens the prompt; a reorganisation deeper than the first offer, which could take back earlier funds, is not modelled.
- ChainSync.ChainSynchronizer.TrackOperation: tracking with a head that is already synchronized; whether a receipt belongs to the operation is one fact of the answer.
- Wallet.ConfirmedIffProved: answers of the read RPC are already decoded; a malformed answer fails the call before it changes anything.
- Replay.IssueExecutionPermit: signatures, hashes, identifiers and the account's age enter as one fact of the request; identifiers may hold the separator of a key, and `Replay.KeysMeetIff` says when two keys then meet.
- LaunchLedger.LedgerReplay.ReplayAll: receipts, events, contract reads, gas and block order of the verification are not modelled, only its two ledgers and the native reserve.
- LaunchPlan.PrepareDeployment: calldata, addresses and the address checks are not modelled; a contract stands for its address, a call for its function and the contracts it names.
- Artifact qualification, deployment evidence, HTTP routes, pages and charts are left out.
