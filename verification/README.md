# Leaderboard backend: a verified model

The backend reads Starknet blocks, indexes the events of a few configured contracts, turns them into
domain events, and scores wallets on a leaderboard. This project models that pipeline in Dafny and
proves what it promises: no block is skipped whatever crashes, repeated deliveries leave no trace in the
table, bonuses have a closed form, boosts are fair, prefix queries are exact. Where the code does not keep
a promise, the exact condition under which it does is proved.

`dafny verify dfyconfig.toml` checks everything.

## Layout

| files | component |
|---|---|
| `Chain.dfy`, `IndexPlan.dfy`, `PlanEffects.dfy`, `Indexer.dfy` | blocks; the writes that indexing a block performs; what they leave; the indexer as classes with storage fields |
| `IndexerMachine.dfy`, `IndexerTheorems.dfy`, `IndexerProgress.dfy` | the indexer as a crash-prone state machine; what holds in every reachable state; what it can still do |
| `Deployments.dfy`, `CatchingUp.dfy` | the indexers of all contracts interleaved over one store; when they have caught up, and that they can |
| `Synchronizer.dfy` | the synchronizer with its goroutines interleaved, the read and the write of the latest-block mark split |
| `PrefixScan.dfy`, `Felt.dfy` | prefix queries over ordered keys; address normalisation |
| `Events.dfy`, `Boosts.dfy`, `BoostLaws.dfy`, `Quotes.dfy` | domain events and scores; boosters applied in place; their laws; interval quotes |
| `Scoring.dfy`, `Bonuses.dfy`, `OrderLaws.dfy` | builders and manager; bonuses in closed form; when order does not matter |
| `Calculators.dfy`, `Totals.dfy` | the decorator tree on the heap; totals and categories |
| `Game.dfy`, `TieOrders.dfy`, `Ties.dfy` | ordering and ranking of one wallet; when events that tie in the sort matter |
| `DomainEventTable.dfy`, `Redelivery.dfy`, `Handlers.dfy`, `Aggregation.dfy` | the handlers and their table; the table under redelivery; its rows field by field; reading it back |
| `Pipeline.dfy` | from blocks to scores |
| `Pages.dfy` | page arithmetic |
| `U256.dfy`, `Sequences.dfy`, `Wrappers.dfy` | wrapping words; sums, filters and permutations; options |

## Conventions

- A 256-bit word is a natural below 2^256; sums and products wrap, division truncates. Results that need
  it state that nothing overflows (`value * 900 < 2^256` for one boosted value).
- The hexadecimal parser and the minter-value query are parameters of the scoring engine (`Env`). A parse
  error of a funding value ends the process (`Fatal`, `None`); other parse errors drop the score.
- An event id is the pair of transaction hash and index that the text `hash_index` is printed from.
  Storage keys are a datatype instead of formatted text. Times are nanoseconds; sorting looks at seconds.
- The indexer results assume that writes succeed, that the first block is fixed, that the chain is fixed,
  that a block carries its own number, and that a hash occurs once among the chain's transactions and
  once among its receipts. A fetch that fails is a step that changes nothing (for a replayed block, one
  that drops it for this run).
- A delivery carries the row id it draws and the metadata its remote calls answer: an empty map when a call
  of a minter, migrator, yielder or offseter handler fails. A transfer, transfer-value or slot change whose
  slot description cannot be fetched panics its handler (`internal/subscriber/project.go:122-127`) and is no
  finished delivery; one whose slot cannot be fetched carries the metadata of slot 0. An event's stored
  content and its subject are functions of the event. A delivery list is in the order in which handlers
  finish (a handler that finds no owner of a token sleeps and asks again), and the time-ordered row ids of
  transfers ascend, since one subscription handles them one after the other.
- Zero padding of text with a width, as the formatting verb of `internal/starknet/utils.go:13` is
  documented there to do, is taken at its word.

## Where the code does less than its promise

- `contracts.mainnet.yaml:76` configures an address of 62 digits. Addresses found on chain are padded to
  64 before the comparison, so nothing of that contract is ever indexed (`Felt.UnpaddedAddressMatchesNothing`,
  and `Felt.AddressTest` for the exact condition).
- The latest-block mark of the synchronizer can go back (`Synchronizer.MarkCanRegress`): exactly in the runs
  where a larger write overtakes a read-check-write (`Synchronizer.MarkFallsExactlyWhenOvertaken`).
- A crash can leave a block below the mark missing for good (`Synchronizer.CrashCanLoseABlock`): exactly the
  blocks of `Synchronizer.CrashStrands`, and no restart brings them back (`Synchronizer.StrandedForGood`). The
  indexer's own re-fetch (`internal/indexer/indexer.go:236-252`) is what fills such a hole.
- The stored latest block of an indexer can go down, exactly on chains with a match below a block without
  one (`IndexerProgress.LatestDropsExactly`); no block is skipped all the same.
- The sort does not fix the order of events of equal key, and the order can decide whether a project bonus
  is awarded (`Ties.TiesCanMatter`); `Ties.TiesMatterExactly` gives the exact condition.
- Rows of transfer-values and slot changes go to the recipient of whichever transfer of the token was
  delivered first, so that the order of deliveries decides their wallet (`Redelivery.TransferOrderMatters`);
  `Redelivery.RedeliveryKeepsTable` gives the exact condition under which order does not matter.
- A failed remote call of a minter, migrator, yielder or offseter handler stores a row with empty metadata,
  and a later delivery does not repair it (`Redelivery.DuplicatesAreIgnored`).
- The per-minter counter counts repeated deliveries again (`Redelivery.CounterIsSum`); scoring does not use it.
- From 5000 dollars on the missing amount of the next-boost quote wraps (`Quotes.MissingTopsUp`).
- The comment at `internal/leaderboard/score_calculator.go:290` announces a multiplication whose result
  `getScoreFromEventValue` does not use; the model follows the code, and under the full manager that
  function is never reached (`Bonuses.ProjectBuilds`).

## Model

| member | source | states |
|---|---|---|
| `IndexerTheorems.NoBlockIsSkipped` | internal/indexer/indexer.go:50-114 | In every reachable state (any interleaving of replaying producer, ascending producer and consumer; crash and restart between any two writes) every block from the first up to the stored latest block, before any noted block, and before the point a restart resumes at, is fully indexed. |
| `IndexerTheorems.NothingLeftBehind` | internal/indexer/indexer.go:95-114 | While the process runs, every block the ascending producer has passed is fully indexed, except possibly the one whose writes are under way. |
| `IndexerTheorems.LatestMayMoveBack` | internal/indexer/indexer.go:216-225 | Storing the latest block moves it backwards if and only if neither the block nor any noted block reaches the old value. |
| `IndexerTheorems.NothingElseIsStored` | internal/indexer/indexer.go:133-186 | Whatever is stored under the contract's keys is a matching transaction under its own hash, or an event of a matching emitter under its own id with the block's time in nanoseconds and emitter, keys and data as found, from a block from the first on; every published id can be read back as such an event. |
| `IndexerTheorems.NotedBlocksAreExact` | internal/indexer/indexer.go:188-214 | The noted blocks have no duplicates, each has a recorded match, and among the blocks a restart passes over they are exactly those with a match. |
| `IndexerTheorems.IndexingAgainIsIdempotent` | internal/indexer/indexer.go:50-59 | Indexing a fully indexed block again leaves storage as it is except for the latest block, and only adds to what was published. |
| `IndexerTheorems.DoneStores` | internal/indexer/indexer.go:133-186 | When every write of a block's plan has taken effect, all matching transactions are stored, all matching events are published and stored under both keys with their id, the block's time in nanoseconds, and emitter, keys and data as found, and the block is noted if it has a match. |
| `IndexerTheorems.StoredIsDone` | internal/indexer/indexer.go:133-186 | The converse: a fully indexed block shows the effect of every write of its plan. |
| `IndexerTheorems.WritesAmountToIndexing` | internal/indexer/indexer.go:72-78 | The write steps of the state machine, uninterrupted, do what the method Index does to storage and to the published messages. |
| `IndexerTheorems.PlanChained` | internal/indexer/indexer.go:145-183 | Within a plan an event is stored under its second key right after the first, published right after that, and a block is noted only right after something of it was recorded. |
| `IndexerTheorems.TransactionsFirst` | internal/indexer/indexer.go:50-59 | In a plan all transactions are stored before any event is stored or published, and setting the latest block is the last write. |
| `IndexerMachine.RunKeepsInv` | internal/indexer/indexer.go:61-114 | The invariant behind the results above holds at the end of every run: decodable duplicate-free index, everything before the latest and each noted block done, the rest of the current plan exactly what is left to do. |
| `IndexerMachine.StepKeepsInv` | internal/indexer/indexer.go:61-114 | Every single step keeps that invariant: boot, fetch, hand-over, each write, crash, and writes of others to keys this contract does not own. |
| `IndexerMachine.NoteLatestKeepsIndex` | internal/indexer/indexer.go:216-234 | Storing the latest block keeps the index sound even when the value goes down. |
| `IndexerMachine.NoteBlockKeepsIndex` | internal/indexer/indexer.go:202-214 | Noting a block, which may create the index with that half-indexed block as its latest, keeps the index sound. |
| `IndexerMachine.PlansAgree` | internal/indexer/indexer.go:145-177 | No two writes planned for one chain put different values under one key. |
| `IndexPlan.PlanContains` | internal/indexer/indexer.go:133-186 | A block's plan consists of storing its matching transactions, storing under two keys and publishing its matching events (each with its id, the block's time in nanoseconds and its own fields), noting the block for each, and setting the latest block; of nothing else. |
| `IndexPlan.MaxOfIsMax` | internal/indexer/indexer.go:219-224 | The maximum of the noted blocks is one of them and not below any. |
| `IndexPlan.MatchingMeans` | internal/indexer/indexer.go:133-161 | A transaction or event matches exactly when its sender or emitter denotes the number of the configured address and that address is written with all 64 digits. |
| `IndexPlan.IndexUpdates` | internal/indexer/indexer.go:202-225 | Noting a block adds that block alone, last and once, and leaves the latest block; storing the latest block leaves the noted ones and gives the largest of all. |
| `IndexPlan.FirstIndex` | internal/indexer/indexer.go:188-200 | Without a readable index the first note creates one that resumes at that very block, and nothing else changes. |
| `PlanEffects.EventsArePublishedInOrder` | internal/indexer/indexer.go:154-186 | Indexing a block appends to the published messages, matching events in the order of the receipts and within a receipt in the order of its events. |
| `IndexerTheorems.EventOfContractIsStored` | internal/indexer/indexer.go:154-186 | Told by felts alone: in a fully indexed block every event whose emitter denotes the contract's number is published, noted, and stored under both keys with the block's time in nanoseconds, its id, and emitter, keys and data as found. |
| `IndexerTheorems.PublishedIsOfContract` | internal/indexer/indexer.go:154-186 | Conversely, in every reachable state each published id can be read back as such an event of a block from the first on, whose emitter denotes the contract's number. |
| `IndexerProgress.NotedBlocksAreReplayed` | internal/indexer/indexer.go:61-93 | Whenever the process starts, every block noted by then can be replayed without a crash, which publishes all its matching events once more. |
| `Indexer.EventIndexer.Index` | internal/indexer/indexer.go:50-59 | Indexing a block performs exactly the writes of its plan, in order; afterwards each matching event is published and both its keys hold an event with its id, the block's time in nanoseconds, and the fields found in a receipt of that hash. |
| `Indexer.EventIndexer.IndexTransaction` | internal/indexer/indexer.go:133-152 | The loop over transactions performs the planned writes of the transactions. |
| `Indexer.EventIndexer.IndexEvent` | internal/indexer/indexer.go:154-186 | The nested loops over receipts and events perform the planned writes of the events, and leave each matching event published and stored in the same way. |
| `Indexer.EventIndexer.IndexStored` | internal/indexer/indexer.go:95-131 | One turn of the ascending loop with the consumer: a block stored under the number is fetched and indexed in full; without one, or when it cannot be decoded, nothing changes. |
| `IndexerProgress.StoredTurn` | internal/indexer/indexer.go:61-131 | The steps of the state machine for such a turn (fetch, hand-over, each write) lead to the same storage and publications. |
| `IndexerProgress.CanAlwaysProgress` | internal/indexer/indexer.go:61-114 | The indexer is never stuck: from every reachable state, running or down, and for every block n, some continuation without a crash fully indexes all blocks before n and would resume at n or later. |
| `IndexerProgress.LatestDropsExactly` | internal/indexer/indexer.go:216-225 | Some run lowers the stored latest block if and only if the chain has a matching block below a block without a match. |
| `Indexer.EventIndexer.GetContractIdx` | internal/indexer/indexer.go:188-200 | The stored index, or a fresh one at the given block when none can be decoded. |
| `Indexer.EventIndexer.SaveContractIndexInterestingBlock` | internal/indexer/indexer.go:202-214 | Stores the index with the block added once. |
| `Indexer.EventIndexer.SaveContractIndexLatestBlock` | internal/indexer/indexer.go:216-234 | Stores the index with the latest block set to the larger of the block and the largest noted block. |
| `Indexer.ContractIndex.AddBlock` | internal/indexer/indexer.go:280-284 | Appends the block unless it is noted already. |
| `Indexer.ContractIndex.SetLatestBlock` | internal/indexer/indexer.go:276-278 | Overwrites the latest block. |
| `Felt.AddressTest` | internal/indexer/indexer.go:135-159 | Normalising a found address gives the configured one if and only if the configured address has all 64 digits and both denote the same felt; so an unpadded configured address is never matched. |
| `Felt.UnpaddedAddressMatchesNothing` | contracts.mainnet.yaml:74-79 | The 62-digit address of the small Manjarisoa minter is matched by no felt: nothing that contract emits is indexed. |
| `Felt.NormalFormsDecideEquality` | internal/starknet/utils.go:11-14 | Two felt texts (lowercase, at most 64 digits, with or without 0x) have the same normal form exactly when they denote the same number. |
| `Felt.NormalFormKeepsValue` | internal/starknet/utils.go:11-14 | Normalising pads to 64 digits and keeps the number. |
| `Felt.NormalisingTwice` | internal/starknet/utils.go:11-14 | Normalising is idempotent. |
| `Synchronizer.MarkIsCovered` | internal/synchronizer/synchronizer.go:38-116 | Under every interleaving and any crashes: a block stored under n has number n, the latest-block mark was handed to SyncBlock, and so was every block from the first up to the mark and up to where a restart resumes. |
| `Synchronizer.MissingBlocksWereLost` | internal/synchronizer/synchronizer.go:62-116 | Every block up to the mark is stored, has its store pending, or had its store killed by a crash. |
| `Synchronizer.FinishedRunIsStored` | internal/synchronizer/synchronizer.go:62-80 | When all goroutines of a run have finished, every block handed over in that run is stored. |
| `Synchronizer.CrashStrands` | internal/synchronizer/synchronizer.go:38-68 | In every reachable running state, a crash leaves block n missing below the mark if and only if n is not stored, lies below the mark, and its store is pending or was killed by an earlier crash. |
| `Synchronizer.CrashLeavesNothingMissing` | internal/synchronizer/synchronizer.go:38-68 | So after a crash every block before the point of resumption is stored if and only if there is no such block. |
| `Synchronizer.StrandedMeansUnrecoverable` | internal/synchronizer/synchronizer.go:38-60 | With the process down, some continuation of the synchronizer alone comes to store a missing block if and only if the block is not stranded. |
| `Synchronizer.CrashCanLoseABlock` | internal/synchronizer/synchronizer.go:62-68 | For every first block there is a run whose crash strands that block. |
| `Synchronizer.StrandedForGood` | internal/synchronizer/synchronizer.go:38-60 | Such a block stays missing through any further steps and restarts, until someone else stores it. |
| `Synchronizer.MarkFallsExactlyWhenOvertaken` | internal/synchronizer/synchronizer.go:100-116 | In every run the mark goes back if and only if between the read and the write of one number another goroutine writes a larger one. |
| `Synchronizer.MarkFallsExactly` | internal/synchronizer/synchronizer.go:100-116 | A single step lowers the mark if and only if it is the write of a number below it. |
| `Synchronizer.UninterruptedNeverFalls` | internal/synchronizer/synchronizer.go:100-116 | So the mark never goes back in a run where no write comes between another write and its read. |
| `Synchronizer.MarkCanRegress` | internal/synchronizer/synchronizer.go:100-116 | For every first block there is a run in which two interleaved read-check-writes take the mark back by one. |
| `Synchronizer.StepsKeepInv` | internal/synchronizer/synchronizer.go:30-116 | The invariant behind these results holds after every list of steps. |
| `Synchronizer.SynchronizerStorage.StoreLatestBlock` | internal/synchronizer/synchronizer.go:100-116 | Run alone, the read-check-write leaves the larger of the mark and the block number. |
| `Synchronizer.SynchronizerStorage.SyncNext` | internal/synchronizer/synchronizer.go:48-116 | One turn of the loop (fetch; store; read-check-write of the mark) leaves storage exactly as the steps of the state machine do when nothing comes in between: a stored block stays, a missing one is taken from the chain. |
| `Synchronizer.TurnRuns` | internal/synchronizer/synchronizer.go:48-116 | Those steps are enabled in turn; they move on to the next block, store this one (the stored block if there is one, else the chain's), raise the mark to the larger number, and leave no goroutine behind. |
| `Synchronizer.MarkingRuns` | internal/synchronizer/synchronizer.go:100-116 | The read step followed at once by the write step is the whole read-check-write. |
| `Synchronizer.SynchronizerStorage.GetLatestBlock` | internal/synchronizer/synchronizer.go:118-135 | The mark, or zero when there is none. |
| `IndexerMachine.OutsideKeepsInv` | internal/indexer/indexer.go:236-252 | Blocks stored by others or by the indexer's own re-fetch, and writes of other contracts' indexers, keep the invariant. |
| `PrefixScan.RangeIsPrefix` | internal/indexer/storage.go:108-126 | For every prefix, empty and all-0xFF ones included, the half-open range from the prefix to its upper bound holds exactly the keys with that prefix. |
| `PrefixScan.KeyUpperBound` | internal/indexer/storage.go:109-119 | The in-place increment from the right computes that upper bound. |
| `PrefixScan.PebbleScan` | internal/indexer/storage.go:108-135 | The bounded iterator returns the values of exactly the keys with the prefix, in key order. |
| `PrefixScan.BadgerScan` | internal/indexer/storage.go:185-203 | Seeking the prefix and stopping at the first key without it returns the same values in the same order. |
| `PrefixScan.MatchingPlaces` | internal/indexer/storage.go:108-135 | The values returned are in the order of the keys: that of a matching entry stands behind as many values as matching entries precede it, and there are no others. |
| `Redelivery.RedeliveryKeepsTable` | internal/subscriber/project.go:14-144 | For all twelve kinds of event: two delivery lists over the same events, with any duplicates and in any order, leave the same rows up to row ids and row order if and only if for each event the first deliveries got the same metadata and, for transfer-values and slot changes, the transfers of their token delivered first went to the same wallet. |
| `Redelivery.DuplicatesAreIgnored` | internal/leaderboard/leaderboard.go:30-41 | A second delivery leaves the table as it is, whatever row id it draws and whatever its remote calls answer. |
| `Redelivery.TransferOrderMatters` | internal/subscriber/project.go:129-144 | Whenever two transfers give one token to different wallets and a third event looks up its owner, delivering one transfer first or the other leaves different tables. |
| `Redelivery.RowsAreDeliveries` | internal/subscriber/project.go:129-144 | The table holds exactly one row per delivered, well-formed event: the translation of its first delivery, for the wallet it names or, if it looks one up, for the recipient of the token's first delivered transfer. |
| `Redelivery.CounterIsSum` | internal/subscriber/minter.go:98-128 | After any deliveries a per-minter counter is the sum of the values of all deliveries of its funding events, repeated ones included, in its low 64 bits. |
| `Redelivery.CountersIgnoreOrder` | internal/subscriber/minter.go:98-128 | So the order of deliveries does not matter to the counters. |
| `Redelivery.CounterIsNotIdempotent` | internal/subscriber/minter.go:98-128 | A second delivery leaves the table alone and moves the counter of its key unless the value it carries (0 unless it is a funding event with a readable value) vanishes in 64 bits. |
| `DomainEventTable.DomainEventStore.Handle` | internal/subscriber/project.go:14-106 | One message creates its event's row unless the id is taken or the owner it looks up is not in the table yet, and for funding events adds the value to the counter on every delivery; the rows of a whole list of messages are those of `Handlers.NamedRowByField` and `Handlers.OwnedRowByField`. |
| `Handlers.RowExistsExactly` | internal/subscriber/subscriber.go:93-100 | After any deliveries there is a row of an event exactly when it was delivered, is stored, has a subscriber, and has every key and data field its handler reads. |
| `Handlers.NamedRowByField` | internal/subscriber/migrator.go:14-45 | For ten kinds, the only row of a delivered event by position of its fields: name, time, emitter, keys, metadata of the first delivery, each kept data field, and the wallet (third key of a transfer, first data field of the others). |
| `Handlers.OwnedRowByField` | internal/subscriber/project.go:43-106 | The same for value transfers and slot changes: the wallet is the nonempty recipient in the first delivered transfer of the token in the third (slot change: first) data field that answers with the same slot. |
| `Handlers.OwnerIsLeast` | internal/subscriber/project.go:129-144 | The owner found is the wallet of the transfer row of that token and slot with the least row id; there is none without such a row or when that wallet is empty. |
| `Handlers.FundedByField` | internal/subscriber/minter.go:98-128 | The counter, kept by project and slot, takes the second data field of mints, the eighth of migrations, and nothing of other events or unreadable values. |
| `Handlers.MigrationIsWorth` | internal/subscriber/migrator.go:23-36 | A delivered migration is worth exactly its eighth data field, without boost, to the wallet in its first. |
| `DomainEventTable.DomainEventStore.GetTransferWallet` | internal/subscriber/project.go:129-144 | The wallet of the matching transfer row of least id; none while there is no such row or its wallet is empty. |
| `DomainEventTable.DomainEventStore.UpdateMinterBoughtValue` | internal/subscriber/minter.go:98-128 | Reads the counter, adds the value on 256 bits, writes back the low 64 bits, creating it when missing. |
| `Pipeline.MintIsWorth` | internal/subscriber/minter.go:25-34 | A delivered mint event belongs to the wallet in its first data field and is worth its second, scaled by the tier of the purchase, and for Karathuru before that by the tier of what Karathuru had collected by then. |
| `Pipeline.ClaimIsWorth` | internal/leaderboard/score_calculator.go:325-361 | A delivered yield claim is worth its amount, an offset claim a hundred times its amount on 256 bits, without boost. |
| `Pipeline.OtherEventsCountByProject` | internal/subscriber/yielder.go:12-54 | Transfers, slot changes, deposits and withdrawals carry neither funding nor a claim; they count through their project metadata alone. |
| `Aggregation.GetMinterCurrentValue` | internal/leaderboard/aggregator.go:28-50 | The loop over the selected rows, in any order, gives the sum of the project's mints up to the time in whole dollars, and exactly what the scoring engine is given as the minter value; it fails exactly when a selected value does not parse. |
| `Aggregation.OneMoreRow` | internal/leaderboard/aggregator.go:24-43 | One more row of the table adds its value to what a project has collected by a time exactly when it is a buy or airdrop of that project recorded at that time or before, and only then has to be readable. |
| `Aggregation.NoRows` | internal/leaderboard/aggregator.go:28-45 | An empty table is worth nothing; the value is the collected sum modulo 2^256 in whole dollars. |
| `Aggregation.LaterMintsEarnNoMore` | internal/leaderboard/boost.go:69-90 | Over a fixed table, of two Karathuru mints of the same value the later never earns more points, through both boosters. |
| `Aggregation.WalletLogHolds` | internal/leaderboard/aggregator.go:107-111 | The log a wallet is ranked on is in order and holds exactly the wallet's rows of the table, each as often as the table. |
| `Aggregation.CoefficientNeverRises` | internal/leaderboard/aggregator.go:28-50 | Over a fixed table a later time never shows a smaller minter value nor earns a better coefficient. |
| `Aggregation.RedeliveryKeepsValues` | internal/leaderboard/aggregator.go:28-50 | Redelivery changes no minter value at any time if only the first deliveries of mints got the same metadata; token ownership does not matter for it. |
| `Aggregation.RedeliveryKeepsWallets` | internal/leaderboard/aggregator.go:107-111 | Redelivery leaves every wallet with the same multiset of events if and only if the deliveries' answers agree. |
| `Aggregation.RedeliveryKeepsScores` | internal/leaderboard/aggregator.go:86-111 | If the answers agree, redelivery does not change what is shown for a wallet whose events have distinct sort keys or settled ties. |
| `Deployments.Project` | internal/indexer/indexer.go:23-35 | All indexers over one shared store, with any interleaving and crashes: seen from one contract, the whole run is a run of its own indexer, because no other contract writes a key it owns. |
| `CatchingUp.CatchesUpExactly` | internal/indexer/indexer.go:23-35 | From whatever state it is in, a deployment can be continued until all its indexers have fully indexed every block below a height and published nothing beyond, if and only if nothing beyond has been published yet. |
| `CatchingUp.ResumingHasReached` | internal/indexer/indexer.go:61-70 | Indexers that would resume at a height or later have fully indexed every block below it. |
| `CatchingUp.WaitingHasReached` | internal/indexer/indexer.go:95-114 | So have running indexers without work in hand whose next block is not below it. |
| `Pipeline.CrashHistoriesAgree` | internal/indexer/indexer.go:154-186 | Two runs of a whole deployment that have indexed everything below the same height and published nothing beyond have published the same events with the same contents, whatever their interleavings and crashes. |
| `Pipeline.ChainEventIsPublished` | internal/indexer/indexer.go:154-186 | Every matching event below a height that all indexers have fully indexed was published and can be read back with the stamped content of the chain, whatever lies beyond; so two such runs agree below it. |
| `Pipeline.CrashesAndRedeliveryKeepScores` | internal/leaderboard/game.go:55-76 | End to end, for all contracts of a deployment: different interleavings and crashes of the indexers, then different deliveries of what was published whose answers agree, then different tie orders of the sort, show such a wallet the same. |
| `Scoring.ComputeScore` | internal/leaderboard/score_calculator.go:182-198 | The double loop over builders and boosters computes the scores of the event: builders in order, each seeing what earlier ones added, boosters in order on each new score; none on a fatal value. |
| `Scoring.RuleWasApplied` | internal/leaderboard/score_calculator.go:271-280 | True exactly when some score has the rule and the project. |
| `Scoring.ComputeNumberOfProjects` | internal/leaderboard/score_calculator.go:296-317 | For a named event, 200 points if some score is named and is not this project's own bonus; otherwise a buy that is nameless or comes without any score is worth its readable value, unscaled, and anything else nothing. |
| `Scoring.ComputeEarlyAdopter` | internal/leaderboard/score_calculator.go:380-402 | Nothing if the event is named and some score is nameless or is this project's own early bonus; otherwise 200, 150 and 100 points for the three listed projects and 50 for any other event (times 10^6). |
| `Scoring.LogInTwoPieces` | internal/leaderboard/game.go:55-66 | Processing a log in two consecutive pieces equals processing it at once, for every manager. |
| `Scoring.EarlierScoresUnaltered` | internal/leaderboard/score_calculator.go:182-198 | Scoring a log only appends, and every appended score belongs to an event of the log. |
| `Bonuses.EventIsFullStep` | internal/leaderboard/score_calculator.go:162-198 | Under the full manager one event adds its funding score, then the project bonus if it is earned, then its claim, then the early bonus if it is earned; it is fatal exactly when a funding value does not parse. |
| `Bonuses.RulesInOrder` | internal/leaderboard/score_calculator.go:162-198 | One event leaves at most one score of each rule, in the order funding, project, resale, offset, early adopter, behind the earlier scores. |
| `Bonuses.ProjectBuilds` | internal/leaderboard/score_calculator.go:282-317 | Under the full manager the project builder either awards exactly 200 points or nothing: the fallback on the event value is never reached. |
| `Bonuses.LogScores` | internal/leaderboard/game.go:55-66 | A log is processed to the end exactly when all its funding values parse, and what its scores show to later builders is a fold over the events. |
| `Bonuses.FirstNamedMeans` | internal/leaderboard/score_calculator.go:296-310 | The event called first named is the first after which some score carries a project name. |
| `Bonuses.ProjectBonusHolders` | internal/leaderboard/score_calculator.go:263-317 | Closed form: the holders of the project bonus are the names of the events after the first named one, and that event's own name exactly when it carries funding. |
| `Bonuses.NoProjectBonus` | internal/leaderboard/score_calculator.go:263-317 | Without a named score nobody holds either bonus. |
| `Bonuses.EarlyBonusHolders` | internal/leaderboard/score_calculator.go:363-402 | Closed form: the holders of the early bonus are the listed names that occur before the first scored event without a project name. |
| `Bonuses.BonusesAreExact` | internal/leaderboard/score_calculator.go:296-402 | Every project bonus is exactly 200 points, every early bonus 200 for Banegas Farm, 150 for Las Delicias or 100 for Manjarisoa (times 10^6), and neither is ever boosted. |
| `Bonuses.BonusesAreUnique` | internal/leaderboard/score_calculator.go:263-402 | No project receives the same bonus twice in one log. |
| `Totals.BonusPointsCapped` | internal/leaderboard/score_calculator.go:363-402 | However long the log, the early-adopter scores sum to at most 450 and the project scores to 200 each (times 10^6). |
| `OrderLaws.NamedLogProjects` | internal/leaderboard/score_calculator.go:263-317 | In a log of named events the holders of the project bonus are read off the events: the projects after the first event that scores by itself, and its own if it carries funding. |
| `OrderLaws.OrdersDifferInBonusesOnly` | internal/leaderboard/score_calculator.go:182-238 | Two orders of any readable log: exact sums, and without overflow the totals shown, differ exactly by the worth of the bonuses held (the listed points of early adopters and 200 per project); equal worth gives equal totals and categories even with overflow. |
| `OrderLaws.OrdersDifferInProjectsOnly` | internal/leaderboard/score_calculator.go:182-238 | For named events that is 200 points per name in one of the sets of names but not the other. |
| `OrderLaws.OrderDoesNotMatter` | internal/leaderboard/score_calculator.go:182-238 | Two orders of a log of named events that both open with funding give equal totals and categories. |
| `OrderLaws.FundingFirstProjects` | internal/leaderboard/score_calculator.go:263-317 | In such a log every project seen receives its bonus. |
| `OrderLaws.NamedLogEarly` | internal/leaderboard/score_calculator.go:363-402 | In a log of named events every listed project seen receives its early bonus, whatever the order. |
| `Game.LessIsStrictWeakOrder` | internal/leaderboard/game.go:16-23 | Less is a strict weak order whose ties are exactly the events of the same second and priority. |
| `Game.LessMeans` | internal/leaderboard/game.go:9-23 | In nanoseconds: an event comes first exactly when it falls into an earlier second, or into the same one with a kind earlier in transfer, transfer-value, slot-changed, others. |
| `Game.ComputeLess` | internal/leaderboard/game.go:16-23 | The comparison through the priority list decides Less. |
| `Game.FindIndex` | internal/leaderboard/game.go:78-85 | The first position of the name, or 99999 when it is not listed. |
| `Game.SortedMeans` | internal/leaderboard/game.go:9-23 | A sorted log runs through the seconds, and within one second through transfer, transfer-value, slot-changed, others. |
| `Game.OutcomesAgreeOnKeys` | internal/leaderboard/game.go:68-76 | Any two outcomes the library sort may return agree on the key at every position. |
| `Game.DistinctKeysFixTheOrder` | internal/leaderboard/game.go:68-76 | If no two events share a key there is only one outcome. |
| `TieOrders.SettledExactly` | internal/leaderboard/game.go:68-76 | For any key, scorers, funders and names: all outcomes of the sort earn equally many names if and only if either every item that may score first keeps its name and items tied with it add none, or every one loses it and the items tied with it only repeat later names. |
| `Ties.TiesMatterExactly` | internal/leaderboard/game.go:55-76 | For every wallet whose funding values are readable, with or without nameless events, without overflow: the order of ties cannot change what is shown if and only if listed events tied with the first nameless scored one only repeat projects of earlier seconds or priorities, and the named events meet the condition on names. |
| `Ties.TiesDoNotMatter` | internal/leaderboard/game.go:55-76 | If the condition holds, all tie orders show the same total and categories, with or without overflow. |
| `Ties.EarliestFundSettles` | internal/leaderboard/game.go:9-23 | It holds when all events are named and every event that may come first carries funding. |
| `Ties.TwoTiedEvents` | internal/leaderboard/game.go:55-76 | It fails for any two tied named events of different projects that both score by themselves, one of them funding: the bonuses are worth 200 points more or less, depending on the sort. |
| `Ties.TiesCanMatter` | internal/leaderboard/game.go:55-76 | A claim and a buy of one second are shown with different totals, depending on the sort. |
| `Game.PersonnalRanking.constructor` | internal/leaderboard/game.go:68-76 | Takes over the caller's events, sorted in place into a permutation without inversions. |
| `Game.PersonnalRanking.ComputeScore` | internal/leaderboard/game.go:55-66 | Scores the events in order, marks them handled, and returns the line with their total, categories and details. |
| `Game.LeaderboardLineFromScore` | internal/leaderboard/leaderboard.go:85-128 | One detail line per score, in order: project, slot, date in milliseconds, event and rule, the boosts joined into one text if there are any, and the points cut to 64 bits. |
| `Game.PointShows` | internal/leaderboard/leaderboard.go:97-125 | What a line of detail shows under each key (the date as the whole second times 1000; boosts only if there are any), its rule, and its points modulo 2^64. |
| `Game.BoostsShown` | internal/leaderboard/leaderboard.go:85-95 | Each boost is shown as x, factor and display name, with two slashes between one and the next. |
| `Totals.ComputeTotalScore` | internal/leaderboard/score_calculator.go:202-212 | Evaluating the nested chain of additions gives the plain sum of the points modulo 2^256, divided by 10^6. |
| `Totals.AggregateCategories` | internal/leaderboard/score_calculator.go:214-238 | Fund is the sum of the points of funded amounts, project and early-adopter bonuses, farming that of resales and offsets (modulo 2^256, divided by 10^6); other is zero; without claims farming is zero, with claims alone fund is. |
| `Totals.RuleTotalSnoc` | internal/leaderboard/score_calculator.go:228-231 | One more score adds its points to the total of its own rule and to no other. |
| `Totals.CategoriesConserveTotal` | internal/leaderboard/score_calculator.go:202-238 | Without overflow, fund plus farming is the total or one less, and other is zero. |
| `Calculators.Calculator.GetPoints` | internal/leaderboard/score_calculator.go:44-106 | Evaluating a tree of decorators gives the points its shape denotes. |
| `Calculators.Calculator.AddLeaf` | internal/leaderboard/score_calculator.go:40-42 | Wrapping the i-th node by a fresh addition or boost changes the tree only in that node's contribution x, to value + x or factor * x / 100 on 256 bits (another kind of calculator takes its place), and the tree still evaluates to the wrapped sum of the contributions. |
| `Calculators.Calculator.Add` | internal/leaderboard/score_calculator.go:32-34 | Adding a node adds its points, modulo 2^256. |
| `Calculators.Calculator.Aggregate` | internal/leaderboard/score_calculator.go:53-111 | A decorator takes the node as its inner calculator; base and composite ignore it. |
| `Calculators.WrappedSumUpdate` | internal/leaderboard/score_calculator.go:40-51 | Replacing one term of a wrapped sum takes the old term off and puts the new one in. |
| `BoostLaws.SplittingNeverPays` | internal/leaderboard/boost.go:61-138 | For a fixed minter value and without overflow, two purchases never earn more boosted points than one of their sum, through both floors and the second threshold reading boosted points. |
| `BoostLaws.SplittingManyNeverPays` | internal/leaderboard/boost.go:61-138 | The same for any number of parts. |
| `BoostLaws.BoostMonotone` | internal/leaderboard/boost.go:61-138 | A larger value never ends with fewer boosted points. |
| `BoostLaws.BoostBounded` | internal/leaderboard/boost.go:61-138 | The boosted points lie between the value and nine times the value. |
| `BoostLaws.BoostedIsTwoScalings` | internal/leaderboard/score_calculator.go:187-192 | Without overflow the two boosters are one scaling after another, the second at the rate of the raised points. |
| `BoostLaws.OnlyFundingIsBoosted` | internal/leaderboard/boost.go:69-138 | Boosters change nothing in a score of another rule, and never rule or event. |
| `BoostLaws.MilestoneNeverRises` | internal/leaderboard/boost.go:69-90 | As the collected value rises the funding coefficient never does, counting no step as 100. |
| `BoostLaws.MilestoneTiers` | internal/leaderboard/boost.go:39-50 | The funding coefficient by tiers of the collected value, upper bounds included. |
| `BoostLaws.ValueTiers` | internal/leaderboard/boost.go:104-138 | The purchase coefficient by tiers of the points, lower bounds included. |
| `BoostLaws.PlainMintIsBoosted` | internal/leaderboard/boost.go:115-138 | A mint of a project other than Karathuru is scaled by the tier of its own value alone, and only that boost is recorded. |
| `BoostLaws.KarathuruMintIsBoosted` | internal/leaderboard/boost.go:53-138 | A mint of Karathuru is first scaled by the tier of what Karathuru had collected when it was recorded, then by the tier of the raised points; both boosts are recorded in that order. |
| `BoostLaws.OthersAreNotBoosted` | internal/leaderboard/boost.go:53-138 | No other event is boosted; a migration keeps its value. |
| `Boosts.ApplyKarathuru` | internal/leaderboard/boost.go:69-90 | Scales the points in place by the first step not exceeded and records the boost; leaves other rules and a failed lookup alone. |
| `Boosts.ApplyProjectValue` | internal/leaderboard/boost.go:122-138 | Scales the points in place by the first step reached and records the boost. |
| `Boosts.ApplyAll` | internal/leaderboard/score_calculator.go:187-192 | The boosters whose check passes, one after the other, on the same score; which events that changes, and how, is `BoostLaws.PlainMintIsBoosted`, `KarathuruMintIsBoosted` and `OthersAreNotBoosted`. |
| `Quotes.GetInterval` | internal/leaderboard/boost.go:141-163 | The loop with its three running values computes the boost of a value and the step before it in the table. |
| `Quotes.IntervalAgreesWithBooster` | internal/leaderboard/boost.go:122-163 | For every step list without overflow the quoted boost is the coefficient applied to the value in token units, zero when there is none. |
| `Quotes.NextIsLeastTopUp` | internal/leaderboard/boost.go:141-163 | For strictly descending steps and a value below the largest, next is above the value, has exactly nextBoost, and no smaller increase changes the boost. |
| `Quotes.NothingAboveTheTop` | internal/leaderboard/boost.go:146-152 | From the largest step on the boost is the largest and there is no next one; an empty table quotes zeros. |
| `Quotes.TokenUnitsWrap` | graph/schema.resolvers.go:58-79 | The product with a million is taken modulo 2^64 into the signed range, and is exact when it fits. |
| `Quotes.MissingTopsUp` | graph/schema.resolvers.go:97-105 | The missing amount tops the value up to the next step if and only if the value is below 5000; from there on it wraps to 2^256 minus the value. |
| `Quotes.BoostForWallet` | graph/schema.resolvers.go:58-79 | For every machine integer: the process exits exactly when the product with a million, on 64 bits, is negative; otherwise the total is that of the parsed product and the boost that of the value read as unsigned. When the product fits, the total is the value times the quoted boost (100 when zero) over 100, rounded down. |
| `Pages.PagesTileTheRanking` | internal/db/db.go:40-44 | The pages 1 to MaxPage, in order, give the ranked list without overlap or gap. |
| `Pages.NextPageIsNotEmpty` | graph/schema.resolvers.go:28-39 | From page 1 on, HasNextPage holds exactly when some later page is not empty. |
| `Pages.MaxPageBounds` | graph/schema.resolvers.go:28-34 | MaxPage is the least number of pages that hold all rows. |

## Left out

- Encodings (gob, JSON, ULID) and the drivers of etcd, Pebble, Badger, PostgreSQL and NATS: storage is a map, the table a list of rows, publishing a list of ids.
- The PostgreSQL `LIKE` query of `internal/indexer/postgres.go`, and the life time of iterator value buffers in the Pebble scan: only key selection is modelled.
- Failing storage writes: the code logs them and goes on.
- Timing and liveness: sleeps, retry counters, rate limiting.
- Indexer.EventIndexer.Index: the producers replayBlocks and start run forever next to it, so they are steps of the state machine and not methods.
- Synchronizer.SynchronizerStorage.SyncNext: runs uninterrupted here; storing the block and the two halves of the read-check-write are separate steps of the state machine.
- Choosing the subject of an event from its key (`internal/subscriber/subscriber.go:35-60`): the subject, if any, is a function of the event.
- Aggregation.RedeliveryKeepsScores: assumes that minter values of the table parse, since the query's loop panics otherwise (Aggregation.GetMinterCurrentValue).
- Game.LeaderboardLineFromScore: decimal printing, and printing a percentage as a factor with one decimal, are parameters.
- Swapping the leaderboard tables, and runs of the aggregator that overlap.
- Pages.PagesTileTheRanking: pages below 1 and limits below 1, which the database rejects or the quotient does not define; and the quotient is a real number, not a 64-bit float.
- The rule name "boost", which no builder uses.
