# A verified model of the ledger-to-database synchroniser

Hyperledger Explorer copies the blocks of Fabric channels into PostgreSQL tables and shows them. This
project models that copying as the concurrent protocol it is, together with the code around it that
reads, hashes, converts and presents what was copied, and proves what holds in every run.

## The protocol

Block events, overlapping `syncBlocks` passes and channel registrations all run as asynchronous tasks
of one process per network, over tables that every network shares. Nothing serialises whole passes:
`synchInProcess` is tested and spliced but nothing is ever pushed to it, and the timer starts the next
pass without waiting for the last. All safety rests on the list `blocksInProcess` and on the count that
precedes each insert.

`SyncMachine.dfy` has one step for each stretch of code between two awaits, and one atomic step for each
SQL statement. A schedule is any sequence of actions: a listener delivers a block event, a task moves on
or throws, a pass starts and moves on with or without an answer from the ledger, a registration moves
on, a process crashes and loses its memory. `After(w, schedule)` is the state a schedule leads to from
empty tables; the main results are about all schedules. Tasks stay in the state after they end, which is
how the results can speak of saves that were aborted. Ledgers, SHA-256, `JSON.stringify`, bcrypt and the
configuration are parameters (`World`, `Setup`).

`WellFormed(w)` is what is asked of the outside, for the channels that the networks have: a block fetched
by number carries that number, and genesis hashes tell the channels of one network apart. `Worlds.dfy`
shows that nothing more is asked and that a digest of 32 octets meets it. `Chained(w, ...)` says that each
block names the digest of the true header before it.

Files, bottom up:

- `Options`, `Text`, `JsArrays`, `Bag`: optional values, decimal and hexadecimal text, `indexOf` and
  `splice`, counting rows by projection
- `Der`: the DER form of a block header and its decoder
- `JsonTree`, `JsonWalks`, `TxIdentity`: decoded objects, the size walk, the rewrite in place
- `Ledger`, `Worlds`: blocks, derived rows, header hash chain; what is asked of the outside
- `SyncMachine`: tables, tasks, actions
- `SyncLocks`, `SyncRows`, `SyncCounters`, `SyncPasses`: the invariants, one concern each
- `SyncSafety`, `SyncLoops`, `SyncResults`, `SyncRecovery`, `SyncRegistration`: the results over all schedules
- `SyncSolo`, `SyncSoloPass`, `SyncService`: calls without interruption as functions, as schedules of the
  machine, and as methods of the services
- `Proxy`, `OrgTotals`, `TxPaging`, `OrgColor`: the read side
- `UserAccounts`, `UserRequests`: the user table, and overlapping requests on it as a second step machine

## Where the code differs from what one would expect

- The guide at the root of Explorer's repository says in line 420 that CUSTOM with `noOfBlocks` 0 loads the
  latest block; the window is empty (`CustomWindowMatchesDocs`).
- A task that throws past the guard keeps its key, so its block cannot be stored before a restart
  (`ThrownTaskHoldsItsBlock`, `OnlyRestartUnblocks`).
- A transaction with a null in an array makes the conversion throw on every delivery, and a number beyond
  the column type makes the first statement throw, so such a block is never stored (`CanBeStoredIff`). Asked
  for such a number, the lookup throws too, although the ledger has the block (`AnswerIs`).
- `isBlockAvailableInDB` ignores the network, so the first loop of a pass may skip a block that only
  another network has stored (`FirstLoopCovers`); the second loop, which does not ignore it, makes up for that
  (`FinishedPassCovers`).
- Two overlapping registrations of a channel leave two rows, or set counters back to zero
  (`OverlappingRegistrationsDuplicate`, `LateRegistrationResets`); without overlap neither happens
  (`OneRowWithoutOverlap`). With two rows the block lookup throws (`LookupThrowsOnTwoRows`).
- Block hashes are computed from the low word of the number, so the chain breaks at 2^31
  (`HeaderChainExact`); the column type keeps such blocks out of the tables.
- Handing the same decoded CONFIG block over twice would store it under two ids
  (`SecondHandoverChangesId`).
- The transaction list is ordered by creation time alone, so ties can move rows between pages
  (`OneOrderIffDistinctTimes`), and an empty result keeps the page count of the previous search
  (`FirstPageCountShown`).
- `app/model/User.ts` declares unique names, but the table is created by `explorerpg.sql` without any unique
  index, so two overlapping requests to register one user both insert (`OverlappingRegistersDuplicate`).
- The role of a requester is checked once: an admin removed meanwhile still registers a user
  (`RemovedAdminStillRegisters`, `WriterIsAdminIff`).

## Model

| member | source | states |
|---|---|---|
| Text.BlockKeyInjective | app/platform/fabric/sync/SyncService.ts:546 | the key under which a block is guarded names one channel and one number, even when channel names contain underscores |
| JsArrays.TakeOutIsRemoval | app/platform/fabric/sync/SyncService.ts:808-809 | on a list without duplicates, `indexOf` and `splice` remove exactly the given key |
| SyncLocks.StepKeepsLocks | app/platform/fabric/sync/SyncService.ts:567-570 | every step keeps: no duplicate keys, keys in the list = keys of unreleased tasks, and no two unreleased tasks of a process on one block |
| SyncResults.LockListIsExact | app/platform/fabric/sync/SyncService.ts:567-570 | in every run `blocksInProcess` has no duplicates and holds exactly the keys of tasks past the guard that run or threw and did not release |
| SyncResults.ReleaseTakesOwnKey | app/platform/fabric/sync/SyncService.ts:808-809 | in every run a release never sees index -1, removes its own key and keeps every other key of every process |
| SyncRows.SameBlockIsStored | app/persistence/fabric/CRUDService.ts:278-289 | the six-column count of `saveBlock` finds a row exactly when the block's network, channel and number are stored |
| SyncRows.StepKeepsTables | app/platform/fabric/sync/SyncService.ts:603-785 | every step keeps: rows are the ledger's, a stored block has all its transactions stored, keys are unique, and a task about to insert is right that the row is absent |
| SyncSafety.AtMostOneRow | app/persistence/fabric/CRUDService.ts:277-339 | in every interleaving of events, passes, failures and restarts: at most one block row per network, channel and number, at most one transaction row per network, channel, number and hash |
| SyncSafety.StoredBlockIsComplete | app/platform/fabric/sync/SyncService.ts:603-785 | in every reachable state a stored block row is the ledger's row, the block is one that can be stored, and every transaction of it is stored, so skipping a stored block is sound |
| SyncSafety.StoredBlockIsDetermined | app/platform/fabric/sync/SyncService.ts:587-786 | once a block is stored its rows are exactly one block row and one transaction row per distinct hash, whatever was aborted, repeated or restarted before |
| SyncSafety.RunsConverge | app/platform/fabric/sync/SyncService.ts:587-786 | any two runs that have stored a block agree on all rows of that block |
| SyncRecovery.TaskFinishes | app/platform/fabric/sync/SyncService.ts:587-811 | in every schedule that gives a task of a storable block its sections, 4 per transaction and 5 more at most, and does not stop it, the task ends with block stored and key released, whatever else runs |
| SyncRecovery.CanBeStoredIff | app/platform/fabric/sync/SyncService.ts:539-811 | from every reachable state some continuation stores a block if and only if it has transactions, its number fits the column, the loop throws on no transaction and, for block 0, passes load blocks |
| SyncRecovery.ThrownTaskHoldsItsBlock | app/platform/fabric/sync/SyncService.ts:567-811 | without a restart a task that threw past the guard keeps its key, and its block stays stored or unstored as it was, whatever events and passes come |
| SyncRecovery.OnlyRestartUnblocks | app/platform/fabric/sync/SyncService.ts:567-811 | with the block unstored, every continuation that stores it restarts the process, and one does exactly when the block can be stored at all |
| SyncRecovery.FailedDeliveryBlocks | app/platform/fabric/sync/SyncService.ts:567-570 | a concrete schedule that leads to such a thrown task with its block unstored |
| SyncResults.NoticesMatchRows | app/platform/fabric/sync/SyncService.ts:783-806 | over all restarts: at most one notice per stored block, exactly one unless the storing task is or was stopped between the INSERT and the send, none for an unstored block |
| SyncCounters.StepKeepsBalance | app/persistence/fabric/CRUDService.ts:291-299 | every step keeps, for blocks, transactions and notices: rows = events that happened + events still owed by tasks |
| SyncResults.CountersBalance | app/persistence/fabric/CRUDService.ts:291-336 | in every run, for each channel row: rows = counter + what was counted before the counter was last set + saves paused or aborted between INSERT and UPDATE; no counter exceeds its rows |
| SyncRegistration.AccountsIffNoneBefore | app/persistence/fabric/CRUDService.ts:291-336 | in every run the counters of a channel row account for its block and transaction rows, apart from saves paused or aborted, exactly when nothing of the channel had been counted before the row was last set |
| SyncRegistration.RegisteredAccountsIff | app/persistence/fabric/CRUDService.ts:291-336 | a channel registered without overlap keeps exactly this one row however the run goes on, and its counters account for the channel's rows, apart from saves paused or aborted, exactly when nothing had been counted before the INSERT |
| SyncRegistration.InsertKeepsOneRowIff | app/persistence/fabric/CRUDService.ts:440-455 | the INSERT keeps one row for the channel exactly when there is none at that moment |
| SyncRegistration.OneRowWithoutOverlap | app/platform/fabric/sync/SyncService.ts:137-177 | in every run in which no two registrations of a channel are past the checks and before the write together, the channel has at most one row and no registration comes to reset counters |
| SyncRegistration.OverlappingRegistrationsDuplicate | app/persistence/fabric/CRUDService.ts:440-469 | a concrete schedule of two overlapping registrations that leaves two identical rows for one channel |
| SyncRegistration.ResetKeepsAccountsIff | app/persistence/fabric/CRUDService.ts:456-468 | after a registration has set the counters to zero they still account for the rows exactly when no block and no transaction of the channel had been counted |
| SyncRegistration.RegistrationAlone | app/persistence/fabric/CRUDService.ts:440-469 | a registration with nothing beside it leaves a known channel alone, throws when the name has a row of another genesis hash, and otherwise adds one row with zero counters |
| SyncRegistration.LateRegistrationResets | app/persistence/fabric/CRUDService.ts:456-468 | a concrete schedule that ends with a stored block, every task over, and both counters zero |
| SyncPasses.WindowHolds | app/platform/fabric/sync/SyncService.ts:395-418 | ALL takes every block, CUSTOM n the newest min(n, height), a non-positive n or an unknown mode none, and a count that is not a number no window |
| SyncPasses.CustomWindowMatchesDocs | app/platform/fabric/sync/SyncService.ts:405-418 | the CUSTOM window is the documented one exactly when the count is not zero or the channel is empty |
| SyncPasses.MissingNumbersExact | app/persistence/fabric/MetricService.ts:721-734 | the missing query gives exactly the numbers up to the latest that this network has no row for, each once, ascending |
| SyncPasses.StepKeepsPasses | app/platform/fabric/sync/SyncService.ts:425-481 | every step keeps: in the second half of a pass each number of its window is stored, held, undelivered or still on its list |
| SyncLoops.PassWaitsForItsTask | app/platform/fabric/sync/SyncService.ts:440-468 | in every run, while a task that a pass started runs and has not released its key, the pass is at the very call that started it, so a pass never runs two tasks |
| SyncLoops.FinishedPassHasNoTask | app/platform/fabric/sync/SyncService.ts:440-481 | in every run each task of a finished pass has released its key or thrown |
| SyncLoops.FirstLoopCovers | app/platform/fabric/sync/SyncService.ts:425-446 | in every run, when the first loop is over, each number of the window is stored in some network, or held by a task of the process, or was not delivered to that loop with a transaction in it |
| SyncLoops.FailedQueryEndsPass | app/platform/fabric/sync/SyncService.ts:384-485 | when the height query or the missing-numbers query fails, the pass ends: whatever follows, it does not finish and starts no further task |
| SyncResults.FinishedPassCovers | app/platform/fabric/sync/SyncService.ts:399-481 | after a finished pass each number of the window is stored for this network, or held by a task of its process, or was not delivered to this pass |
| SyncRecovery.FinishedPassStoresIff | app/platform/fabric/sync/SyncService.ts:399-481 | when the tasks then still on a block get their sections, a delivered storable number of the window ends stored exactly when it was stored already or no thrown task held it |
| SyncResults.PassWindowIsConfigured | app/platform/fabric/sync/SyncService.ts:395-418 | in every run a pass works on the configured window of the height it was told |
| SyncResults.PassInsertsInWindow | app/platform/fabric/sync/SyncService.ts:425-476 | every row, block or transaction, inserted by a task of a pass lies in that pass's window, network and channel |
| SyncResults.StoredRowsChain | app/platform/fabric/sync/SyncService.ts:590-601 | consecutive stored rows of a network and genesis hash are chained by `blockhash` and `prehash` in every reachable state, whatever the order of insertion |
| SyncResults.StoredRowTellsBlock | app/platform/fabric/sync/SyncService.ts:590-601 | in every reachable state a block row's hashes read back, from hexadecimal text, to the two hashes of the ledger's header and the digest of its DER form; its count, time and size are the block's |
| SyncResults.StoredTxTellsId | app/platform/fabric/sync/SyncService.ts:630-710 | every transaction of a stored block has a row: under its id, or for a CONFIG transaction under a text that reads back to the digest of its JSON text |
| Worlds.LookupExistsIff | app/platform/fabric/FabricClient.ts:279-285 | a reverse lookup that makes the world well-formed exists exactly when no two channels of one network share a genesis hash and blocks carry their numbers |
| Worlds.WellFormedWorldExists | app/platform/fabric/utils/FabricUtils.ts:70-89 | a well-formed world with 32-octet digests, several channels on every network and chained, storable ledgers |
| Ledger.HeaderChainExact | app/platform/fabric/utils/FabricUtils.ts:70-89 | the computed hash of block n is the previous hash of block n+1 exactly when n is below 2^31, given a digest that tells the two headers apart |
| Der.DecodeOfEncode | app/platform/fabric/utils/FabricUtils.ts:71-87 | decoding an encoded header gives back number, previous hash and data hash |
| Der.EncodeOfDecode | app/platform/fabric/utils/FabricUtils.ts:71-87 | the decoder accepts nothing but encodings, so each header has exactly one DER form |
| Der.EncodeInjective | app/platform/fabric/utils/FabricUtils.ts:71-87 | two headers with the same encoding are the same header |
| SyncSolo.SoloIsASchedule | app/platform/fabric/sync/SyncService.ts:587-811 | the uninterrupted run of a block task, to its release or its throw, is one of the machine's schedules, with the same tables, notices, end and lock list |
| SyncSolo.SoloEndsClear | app/platform/fabric/sync/SyncService.ts:604-627 | that run ends with a throw exactly when the loop throws on a transaction to come or the number is beyond the column type |
| SyncSolo.EventFacts | app/platform/fabric/sync/SyncService.ts:567-809 | what it leaves: an admitted storable block stored and the keys as before; any other admitted block its key and no row; at most this block's row added |
| SyncSoloPass.PassIsASchedule | app/platform/fabric/sync/SyncService.ts:375-486 | the uninterrupted pass is one of the machine's schedules, with the same tables, notices, keys, window and undelivered numbers |
| SyncSoloPass.PassFacts | app/platform/fabric/sync/SyncService.ts:399-481 | what it leaves: every number of the window stored, in process or undelivered; only rows of the window added; only keys of blocks of the window that the loop throws on left behind |
| SyncSoloPass.LoadsStore | app/platform/fabric/sync/SyncService.ts:425-446 | a block of the window that can be processed and is not in process ends stored for this network when it is delivered and no network has a row of its genesis hash and number; otherwise the first loop leaves its rows and key as they were |
| SyncService.CrudService.SaveTransaction | app/persistence/fabric/CRUDService.ts:313-339 | inserts and counts exactly when no row has the same number, hash, channel and network |
| SyncService.CrudService.SaveBlock | app/persistence/fabric/CRUDService.ts:277-302 | inserts and counts exactly when no row agrees on the six compared columns; the block is stored afterwards either way |
| SyncService.SyncServices.ProcessBlockEvent | app/platform/fabric/sync/SyncService.ts:539-811 | leaves tables, notices and lock list of the machine's task run alone; rejected, processed or stuck exactly as guard, conversion and column type decide |
| SyncService.SyncServices.SyncBlocks | app/platform/fabric/sync/SyncService.ts:375-486 | leaves tables, notices and lock list of the machine's pass run alone, so every number of the window ends stored, in process or undelivered |
| SyncService.SyncServices.LoadWindow | app/platform/fabric/sync/SyncService.ts:425-446 | the descending loop leaves what the first half of the machine's pass leaves |
| SyncService.SyncServices.FillGaps | app/platform/fabric/sync/SyncService.ts:448-476 | the loop over the missing numbers leaves what the second half of the machine's pass leaves |
| JsonTree.MapBuffersAt | app/platform/fabric/sync/SyncService.ts:813-828 | path by path: a Buffer under `value` becomes its text, every other node keeps its kind, keys, length and leaf value |
| JsonTree.MapBuffersTwice | app/platform/fabric/sync/SyncService.ts:813-828 | a second conversion, with any encoding, changes nothing |
| JsonTree.MapBuffersFixes | app/platform/fabric/sync/SyncService.ts:813-828 | the conversion leaves an object as it is exactly when it holds no Buffer under `value` |
| JsonWalks.Node.Convert | app/platform/fabric/sync/SyncService.ts:813-828 | the rewrite in place throws exactly when the walk meets a null that is not under an object key; it leaves everything before that null converted and everything after it as it was |
| JsonWalks.UntilThrowIsMap | app/platform/fabric/sync/SyncService.ts:813-828 | without such a null the tree left is the mapped tree |
| TxIdentity.IdentifyAndConvert | app/platform/fabric/sync/SyncService.ts:603-710 | the id of a CONFIG transaction is hexadecimal text that reads back to the digest of the JSON text of the object as delivered, whatever encoding the conversion uses; any other keeps its header's id |
| TxIdentity.SecondHandoverChangesId | app/platform/fabric/sync/SyncService.ts:605-710 | handing the same CONFIG object over again changes its id exactly when the first conversion changed it |
| JsonWalks.SizeWalk.SizeOf | app/platform/fabric/sync/SyncService.ts:860-896 | the shared accumulator grows by the sum over the leaves of the tree |
| JsonTree.BytesAddUp | app/platform/fabric/sync/SyncService.ts:860-896 | the sum is additive: arrays and objects weigh what their parts weigh together, empty ones and keys nothing |
| JsonWalks.JsonObjSize | app/platform/fabric/sync/SyncService.ts:860-903 | the kilobytes reported are within 512 bytes of the true sum |
| JsonTree.KiloBytesNearest | app/platform/fabric/sync/SyncService.ts:898-900 | no integer is nearer to the quotient, and of two equally near ones the larger is taken |
| Proxy.ReadThroughAgrees | app/platform/fabric/Proxy.ts:654-682 | in every reachable state without two rows of the channel, the database answer and the ledger answer for a stored block agree on every field but the name, and on the set of hashes without CONFIG transactions; the database names the channel exactly when the channel has a row |
| Proxy.ConfigHashesDiffer | app/platform/fabric/Proxy.ts:761-790 | with a CONFIG transaction the two sets of hashes differ, unless its digest is some transaction's id |
| Proxy.StoredHashes | app/persistence/fabric/CRUDService.ts:572-584 | the aggregated hashes of a stored block are exactly the hashes its transactions are stored under |
| Proxy.LookupThrowsOnTwoRows | app/persistence/fabric/CRUDService.ts:572-584 | the lookup of a stored block throws exactly when two positions of the channel table have its network and genesis hash |
| Proxy.FormatBlockData | app/platform/fabric/Proxy.ts:761-790 | throws exactly without transactions; otherwise the fields of the row that processing stores, and the id of every transaction at its place |
| Proxy.AnswerIs | app/platform/fabric/Proxy.ts:654-682 | at any moment of any run: an exception exactly when the number is beyond the column type, two positions of the channel table have the stored block's network and genesis hash, or the block delivered instead has no transactions; not found exactly when the number fits and the block is neither stored nor delivered; otherwise the block's data |
| Proxy.AnswerTells | app/platform/fabric/Proxy.ts:654-682 | the answer for a stored block lists each hash its transactions are stored under once, and the channel's name exactly when it has a row; for any other block, the ids in their order and the name |
| Proxy.FetchDataByBlockRange | app/platform/fabric/Proxy.ts:629-651 | exactly the longest run of available blocks from the start, ascending, within the range, while the synchroniser goes on; not found only when the first block is neither stored nor delivered at its turn; an exception when the first gap throws, as it does beyond the column type; undefined only for an empty range |
| OrgTotals.SpliceCounted | app/platform/fabric/Proxy.ts:306-311 | the splicing loop leaves exactly the organisations without a counted row, each once |
| OrgTotals.MergeOrgs | app/platform/fabric/Proxy.ts:298-319 | counted rows are kept in front, the rest get count 0, and every id of either input has exactly one row |
| OrgTotals.GetTxByOrgs | app/persistence/fabric/MetricService.ts:701-711 | queries and merge together: one row per creator that is not blank or peer organisation, whose count is the decimal text of its number of transactions |
| OrgColor.IntConversion | client/src/components/Charts/OrgPieChart.js:38-44 | the loop with its 32-bit shift stays exact and congruent to the base-31 hash modulo 2^32 |
| OrgColor.ColorReadsBack | client/src/components/Charts/OrgPieChart.js:46-49 | the colour is always `#` and six hexadecimal digits that read back the low 24 bits |
| OrgColor.ColorOfText | client/src/components/Charts/OrgPieChart.js:38-58 | the colour of a text shows its base-31 hash modulo 2^24 |
| TxPaging.BuildStatements | app/persistence/fabric/CRUDService.ts:102-122 | the count and list statements, built step by step with different placeholder numbers, both select exactly the wanted rows |
| TxPaging.ListingExists | app/persistence/fabric/CRUDService.ts:102-122 | whatever the rows, a listing of exactly the wanted ones by descending creation time exists |
| TxPaging.PagesCoverListing | app/persistence/fabric/CRUDService.ts:116-127 | the answers for pages 1 to the reported count concatenate to the whole listing, none of them empty; every later answer is empty, and none but the first reports a count |
| TxPaging.ListFailsIff | app/persistence/fabric/CRUDService.ts:122-123 | the list query fails exactly for a negative size, or for a page before the first with a size other than zero |
| TxPaging.PagesAreDisjoint | app/persistence/fabric/CRUDService.ts:122-126 | no row is in the answers for two pages |
| TxPaging.OneOrderIffDistinctTimes | app/persistence/fabric/CRUDService.ts:122-123 | all page queries see one order exactly when no two filtered rows have the same creation time |
| TxPaging.CountSurvivesPaging | client/src/state/redux/tables/reducers.js:170-183 | the count of page 1 stays through any number of later pages and unrelated actions |
| TxPaging.FirstPageCountShown | client/src/state/redux/tables/reducers.js:170-183 | after a first page the shown count is the reported one exactly when there are rows or the count shown before was zero |
| UserAccounts.UserService.Register | app/platform/fabric/service/UserService.ts:135-180 | status 200 and one new row when every check passes and the row is accepted, otherwise 400 and no change |
| UserAccounts.UserService.Unregister | app/platform/fabric/service/UserService.ts:190-234 | status 200 and the user's row gone when every check passes, otherwise 400 and no change |
| UserAccounts.InsertKeepsOnceIff | app/persistence/fabric/UserDataService.ts:56-58 | an insert keeps its key stored once exactly when the key is absent at that moment |
| UserRequests.UninterruptedIsApply | app/platform/fabric/service/UserService.ts:135-234 | role check, lookup and write with nothing in between do what the checks taken together say, with status 200 or 400 |
| UserRequests.KeysStayUnique | app/platform/fabric/service/UserService.ts:143-171 | in every interleaving in which no two registrations of a key are between lookup and insert together, the key stays stored at most once |
| UserRequests.OverlappingRegistersDuplicate | app/platform/fabric/service/UserService.ts:143-171 | a concrete schedule of two requests, both answered with 200, that stores the user twice, with only the first password of use |
| UserRequests.RootAdminPersists | app/platform/fabric/service/UserService.ts:204-223 | the root admin of a network, once registered, is found unchanged in every interleaving of requests |
| UserRequests.NetworksAreSeparate | app/persistence/fabric/UserDataService.ts:42-79 | requests on other networks, however they overlap, leave a network's rows exactly as they were |
| UserRequests.OutsidersChangeNothing | app/platform/fabric/service/UserService.ts:110-126 | in every interleaving no step of a request changes the table unless that request's own role check, at one earlier step, found its requester an admin of the network |
| UserRequests.StatusTellsWrite | app/platform/fabric/service/UserService.ts:135-234 | in every interleaving a request is answered 200 or 400: 200 exactly when one step of it wrote, 400 only when no step of it changed the table |
| UserRequests.RemovalIsAllowed | app/platform/fabric/service/UserService.ts:190-223 | in every interleaving a removal past its checks is of another account than its requester's, on a configured network, and not of that network's root admin |
| UserRequests.WriterIsAdminIff | app/platform/fabric/service/UserService.ts:135-234 | at the write of an external request its requester is still an admin if the account was not removed since the request's role check, and without a new registration of the account exactly then |
| UserRequests.RemovedAdminStillRegisters | app/platform/fabric/service/UserService.ts:135-180 | a concrete schedule in which an admin removed between role check and insert still registers a user |
| UserAccounts.UserService.Authenticate | app/platform/fabric/service/UserService.ts:41-83 | with authentication enabled a key stored once logs in exactly when the table has a row of it whose salted hash the password gives; disabled, any named user of a known network does |
| UserRequests.AuthenticatesOldestRegistration | app/platform/fabric/service/UserService.ts:41-83 | in every interleaving a login succeeds exactly when the first registration written since the key was last absent has a salted hash the password gives |
| UserRequests.AuthenticatesLastRegistration | app/platform/fabric/service/UserService.ts:41-83 | while registrations of the key do not race, that is the last successful operation on the key |

## Left out

- Gateway, discovery, certificates and wallets: ledger queries are parameters that may give no block.
- Connection handling: each SQL statement is one atomic step; a statement that is still on its way to the
  server when its process dies, and is executed after the restart, is not modelled.
- SHA-256, bcrypt, `JSON.stringify` and Buffer encodings: functions given from outside.
- `asn1.js` is not part of this model; the header's DER form follows ITU-T X.690, and negative low words,
  which only occur beyond the range of the block number column, get their standard two's complement form.
- Discovery and chaincode follow-ups scheduled by `processBlockEvent`, the `chaincodes` counter, and the
  values of the transaction columns other than network, channel, number and hash.
- `FabricEvent` and the timers of `SyncPlatform`: their effect is that events and passes come at any time,
  which the schedules allow; how many listeners or passes there are is not restricted. The listener's
  skipping of block 0 is kept.
- `findMissingBlockNumber` has no ORDER BY; the model uses the order of the generated series, and the
  coverage results do not depend on it.
- SyncRecovery.CanBeStoredIff: column widths are assumed to suffice; a value too long for its column, such as
  many endorser names, would make the INSERT throw on every delivery. Which objects have all the fields the
  loop reads beyond their headers is given with each transaction, and headers are taken to be there.
- `findOne` and `findUser` have no ORDER BY; with two rows of a key the model takes the older one.
- Block events and queries are taken to deliver freshly decoded objects; `TxIdentity` shows why it matters.
- JsonWalks.SizeWalk.SizeOf: plain objects, arrays, Buffers and primitive leaves; an object of another class without a length would make the sum not a number.
- OrgColor.IntConversion: texts of at most 4194176 code units, for which doubles are exact; the code applies it to 64 hexadecimal digits.
- Proxy.ReadThroughAgrees: numbers are compared as numbers, although the ledger answer carries some of them as text.
- UserAccounts.UserService.Register: first and last names are not modelled; the validation of the model is a parameter.
- Transaction paging takes the joined rows as given; a channel registered twice would double them.
- `getBlockAndTxList`, the time-bucket queries, peer status, routes, React components and the other
  reducers: plumbing, or facts that follow from one line.
