# Spotted network: a verified model of the operator node

An operator node of a weighted-signature oracle reads a contract value at a block, signs it and gossips it. Every node
adds up the stake weight behind the responses it has seen and records a consensus once a threshold is met. This project
models that behaviour in Dafny and proves what it promises, over every interleaving of the node's goroutines and for
every input.

`dafny verify dfyconfig.toml` checks the whole project.

## What is here

| file | subject |
|---|---|
| `Decimal.dfy` | decimal text, database numerics |
| `Packing.dfy` | the bytes that are signed, address texts and what they denote |
| `HistoryStore.dfy` | the state manager contract as a class, against replay of its log of writes |
| `EpochMath.dfy` | block-to-epoch arithmetic with fixed-width wrap-around, the activity predicate |
| `OperatorSchedule.dfy`, `OperatorServices.dfy` | the operators table as a machine of events and refresh transactions; repository, listener and updator as classes proved against it |
| `BlockSearch.dfy` | the three-loop search for the block nearest a timestamp |
| `CacheMachine.dfy`, `CacheClient.dfy`, `CacheRefinement.dfy` | the read-through cache as concurrent sessions over one keyspace; the client as a class; what ties them |
| `KeyOrder.dfy` | sorted key listings, sums over weight maps |
| `TaskModel.dfy`, `TaskMachine.dfy` | responses, tracker, tables; nodes, goroutines and chains as one machine with steps of one lock section or one SQL statement |
| `TaskSafety.dfy`, `TaskOrigin.dfy`, `TaskProvenance.dfy`, `TaskValidity.dfy`, `TaskLifecycle.dfy`, `TaskPublication.dfy` | what every run of that machine keeps, and where its records come from |
| `TaskHypotheses.dfy` | runs that end falsely without the hypotheses of validity |
| `RetryRounds.dfy`, `TaskOutcomes.dfy` | rounds of the retry loop; what each call of the processor comes to, field by field |
| `TaskProcessor.dfy`, `ApiHandler.dfy` | the task processor and the request handler as classes |
| `TaskRefinement.dfy`, `PollRefinement.dfy`, `ArrivalRefinement.dfy` | uninterrupted goroutines, polling steps, deliveries and requests of the machine do what the classes' methods do |

A machine is a total step function (a step that does not apply changes nothing). A `Run` is a list of states with the
steps between them; the main results speak about state `k` of any run, that is, about every moment of every
interleaving. Goroutines are values with a program point; the tracker's inner maps are addressed buckets, because
`checkConsensus` keeps references to them after releasing the lock, so that a cleanup in between drops the outer entry
while the check goes on with the old maps.

Signing is ideal: the hash is injective, so the packed bytes stand for the digest, and a signature verifies for a key
exactly if that key signed those bytes. Chains only grow; heads, block times, clock readings, database outcomes and
message contents are parameters of the steps.

### The validity hypotheses

`TaskValidity` proves that recorded values are the chain's under two assumptions that the code does not check:

* *Agreement of traffic* (`Agrees`): messages and requests with one task id stand for one tuple of address, chain, block,
  key and value, within the widths of the contract. Receivers do not recompute task ids, and `checkConsensus` adds the
  weight of all responses under an id without comparing what they say. `AgreementNeeded` is a run of one honest node that
  keeps the fault bound throughout and ends with a false record: a message under the id of another claim borrows the
  weight behind that claim. `SameTaskIdIff` says when two requests hash the same bytes: only the low bytes of chain and
  requested block enter, and a request by timestamp has requested block 0.
* *Fault bound* (`FaultBound`): keys that do not run a node never hold summed weight that reaches the threshold in force
  when the sum is compared. `FaultBoundNeeded` is a run in which all messages agree and one such key alone writes a false
  record.

Without any assumption, `RecordSaysWhatTriggerClaims` traces every record to the response that triggered its check: the
record says what that response claims. If traffic merely keeps to the widths of the contract, whatever task ids are used
for and whoever holds the weight, `SignersThatAreNodesTellTheTruth` shows that a false record can only come from a trigger
of a key that does not run a node, and that every signer of any record that does run a node signed a claim that holds.
`AgreementNeeded` is such a false record.

### Where the code differs from what it says

* `IsOperatorActive` treats the first block of the active epoch as inactive when exit < active
  (`IsOperatorActiveReturning`). Events handled in block order never write such a row (`RowsStayInOrder`).
* An event handled between the listing of rows and the commit of a refresh can leave `is_active` wrong until the next
  refresh. `CachedActivityExact` says exactly which rows. `RefreshRaceIsReal` is a run on which a returning operator is
  marked active too early, `LateEventIsMissed` one on which a late registration stays inactive too long.
* Events may come late for a refreshed epoch, but by no more than a grace period: `EventKeepsExactIff` and
  `EffectiveAfterIff` give the exact limit for a single event.
* A tick reads the head twice; when the two reads straddle an epoch boundary the rows are computed for the later epoch
  under the earlier number. `SplitReads` says which rows are wrong at the blocks of that number, `SplitReadIsReal` gives a
  run.
* `ProcessTask` reads the weight of this node's operator row without checking that there is one, and `checkConsensus`
  compares with the threshold of the epoch state, which is nil until the first one has been read. Either panics: a signed
  answer without an operator row, a published answer without a threshold (`ProcessTask`). The response and request
  handlers recover; in a polling loop the process ends, so that a round may be cut short by a row whose answer breaks in
  one of these two ways (`CheckTimeouts`, `CheckConfirmations`).
* Clamping to block 0 in `TimestampToBlockNumber` does not refresh the fetched block. The result is nearest exactly if the
  jumps stay above genesis or genesis is nearest anyway (`TimestampToBlockNumber`); a slow chain misses it
  (`UnpacedChainMissesNearest`).
* A deregistration event of an unknown operator dereferences a missing row and stops the listener
  (`HandleOperatorDeregistered`).
* The comment on `generateTaskID` names the epoch among the hashed fields; the code leaves it out, and hashes only the low
  bytes of chain and block (`TaskIdLayout`).
* A block that cannot be fetched ends the jumps of `TimestampToBlockNumber` with an error, but the walk after them
  silently with the nearest block reached so far (`TimestampToBlockNumber`).
* Two keys and values of more than 32 bytes can collide when packed (`OversizedKeyCollides`); with a tuple that fits only
  signs and block negations can (`PackEqualIff`).
* A fetch that is in flight across a source change survives the invalidation of that change (`LateFillServesStale`).

## Model

| member | source | states |
|---|---|---|
| Decimal.ParsePrint | pkg/common/utils.go:97-105 | decimal parsing undoes printing, for every integer |
| Decimal.PrintParseIff | pkg/common/utils.go:97-105 | a text survives parse and print exactly if it has no plus sign, no leading zero and no minus zero |
| Decimal.DigitTable | pkg/common/utils.go:97-105 | the ten digits in order of value, and no other |
| Decimal.SetStringMeans | pkg/common/utils.go:97-105 | the whole grammar: digits, or digits after a sign, minus negating; the empty text is zero; nothing else is an integer |
| Decimal.DigitsAppend | pkg/common/utils.go:60-67 | decimal positions: digits count as many powers of ten as digits follow them |
| Decimal.NumericTextMeans | pkg/common/utils.go:38-51 | a positive exponent appends that many zeros to the printed integer, a negative one drops that many digits; invalid, missing and zero print 0 |
| Decimal.NumericToBigIntExact | pkg/common/utils.go:54-77 | the conversion returns v exactly if the numeric denotes the integer v |
| Decimal.FractionExact | pkg/common/utils.go:69-75 | the conversion fails exactly on numerics that denote no integer |
| Decimal.StringAgreesWithBigInt | pkg/common/utils.go:38-77 | the printed numeric parses back to what the integer conversion returns |
| Decimal.StringRoundsDown | pkg/common/utils.go:46-49 | on a fraction, where the integer conversion fails, the text is the integer below it |
| Packing.PackLayout | pkg/common/crypto/signer/signer.go:79-84 | the packed message is 148 bytes; each field sits at its own offset and reads back, key and value without their sign, the block as itself or its 64-bit negation |
| Packing.FromBytesAppend | pkg/common/crypto/signer/signer.go:79-84 | the bytes read back are big endian: leading bytes count as many powers of 256 as bytes follow |
| Packing.WordLimits | pkg/common/crypto/signer/signer.go:80-84 | a word is 256 bits and an address 160 |
| Packing.HexTable | pkg/operator/task/response.go:191 | the sixteen hexadecimal digits in order of value, in either case |
| Packing.HexToAddressMeans | pkg/operator/task/task.go:75 | a text of hexadecimal digits, with or without 0x and in either case, denotes the address whose bytes are its number in base 16 modulo 2^160, big endian |
| Packing.HexBytesStops | pkg/operator/task/task.go:95 | decoding stops at a pair that is not all digits |
| Packing.AddressRoundTrip | pkg/operator/task/response.go:191 | every address is read back from its printed digits |
| Packing.UnpackPack | pkg/common/crypto/signer/signer.go:77-84 | the packed message decodes to the tuple it was made from |
| Packing.PackInjective | pkg/common/crypto/signer/signer.go:77-101 | two tuples in range with equal packed bytes are equal, so a signature vouches for one tuple |
| Packing.PackEqualIff | pkg/common/crypto/signer/signer.go:79-84 | which tuples, of integers of any width, share the packed bytes of a tuple whose key and value fit 32 bytes: same address, chain and magnitudes, and the block equal or its 64-bit negation |
| Packing.OversizedKeyCollides | pkg/common/crypto/signer/signer.go:83-84 | without the width bound injectivity fails: a key and value of other widths packed to the same bytes |
| HistoryStore.ReplayMeaning | mock/src/MockStateManager.sol:34-53 | the value at the end of block n is that of the last write to the slot in block n or earlier |
| HistoryStore.ReplayStable | mock/src/MockStateManager.sol:376-389 | writes in later blocks never change an answer |
| HistoryStore.ReplayIsLastEntry | mock/src/MockStateManager.sol:48-50 | the slot's history array and the global log give the same answer |
| HistoryStore.BinarySearch | mock/src/MockStateManager.sol:108-133 | the index of the last entry at or before the target |
| HistoryStore.StateManager.SetValue | mock/src/MockStateManager.sol:34-53 | one write extends the log by itself and keeps current values, histories and used keys equal to what the log says |
| HistoryStore.StateManager.BatchSetValues | mock/src/MockStateManager.sol:58-85 | a batch extends the log by its writes in order, or changes nothing when it has more than 100 |
| HistoryStore.BatchIsRead | mock/src/MockStateManager.sol:58-85 | after a batch a key reads the value it was last given in it, from that block on, and every other slot what it did |
| HistoryStore.StateManager.GetHistoryAtBlock | mock/src/MockStateManager.sol:376-389 | returns the replayed value; fails exactly when no write at or before n exists, telling apart slots never written |
| HistoryStore.StateManager.GetHistoryAtTimestamp | mock/src/MockStateManager.sol:396-412 | finds exactly written timestamps, and the last write at that timestamp |
| EpochMath.EffectiveEpochClosedForm | pkg/common/utils.go:281-296 | the effective epoch is floor((b - G + grace) / period) + 1, computed with wrapping arithmetic |
| EpochMath.EffectiveEpochBounds | pkg/common/utils.go:277-296 | one or two above the current epoch, starting more than grace and at most period + grace blocks after b |
| EpochMath.EffectiveEpochMonotone | pkg/common/utils.go:277-296 | both epoch functions are monotone |
| EpochMath.EffectiveAfterIff | pkg/common/utils.go:281-296 | an event takes effect after an epoch exactly if it comes no earlier than a grace period before that epoch starts |
| EpochMath.ContractAgrees | mock/src/MockEpochManager.sol:52-62 | the contract's effective epoch never reverts and equals the node's |
| EpochMath.IntervalMeaning | mock/src/MockEpochManager.sol:27-36 | the contract's interval is where the epoch is current, its grace block where the effective epoch moves on |
| EpochMath.IsOperatorActiveInOrder | pkg/operator/epoch/helpers.go:12-41 | on in-order rows activity is membership of the current epoch in [active, exit) |
| EpochMath.IsOperatorActiveReturning | pkg/operator/epoch/helpers.go:42-58 | on all other rows it is absence from [exit, active), except exactly at the first block of the active epoch |
| OperatorSchedule.RunKeepsInv | pkg/operator/event/listener.go:167-227 | over every run of events and refreshes, however late, rows are in order, unlisted rows inactive and epochs consistent |
| OperatorSchedule.RunKeepsCache | pkg/operator/epoch/updator.go:161-228 | over every run of timely events, the rows whose cached activity is wrong at the refreshed epoch are exactly the stale ones |
| OperatorSchedule.EventKeepsExactIff | pkg/operator/event/listener.go:172-220 | an event keeps the cached activity of its operator right exactly if it takes effect after the refreshed epoch |
| OperatorSchedule.CachedActivityExact | pkg/operator/epoch/updator.go:161-228 | after a refresh, is_active equals IsOperatorActive at every block of the refreshed epoch exactly on the rows whose service at that epoch did not change between listing and commit; events may be a grace period late |
| OperatorSchedule.CachedActivityExactUndisturbed | pkg/operator/epoch/updator.go:161-228 | the cache is exact on every row if events handled during a refresh take effect after its epoch and do not bring back a listed serving operator |
| OperatorSchedule.RefreshRaceIsReal | pkg/operator/epoch/updator.go:175-219 | a run of timely events that ends with an active row whose service has not started |
| OperatorSchedule.LateEventIsMissed | pkg/operator/epoch/updator.go:175-219 | a run of timely events that ends with an inactive row whose service has started |
| OperatorSchedule.RowsStayInOrder | pkg/operator/event/listener.go:172-188 | when events alternate and come in block order, every row has exit = sentinel or exit >= active, and activity is interval membership at any block |
| OperatorSchedule.EpochsOverRuns | pkg/operator/epoch/updator.go:139-154 | the in-memory epoch is never below the last processed one, which never decreases and moves only with a commit; failed ticks leave the table alone, commits refresh activity, weight and keys of every listed row; what events and begins write is fixed column by column |
| OperatorSchedule.SplitReads | pkg/operator/epoch/updator.go:133-165 | after a tick whose reads fall in two epochs, a row is right at the blocks of the recorded epoch exactly if its service agrees in both |
| OperatorSchedule.SplitReadIsReal | pkg/operator/epoch/updator.go:133-165 | a run on which it does not |
| OperatorSchedule.ReregistrationEndsService | pkg/operator/event/listener.go:176-188 | a serving operator that leaves and registers again in one epoch reads as out of service at once |
| OperatorServices.OperatorRepo.UpsertOperator | pkg/repos/operators/query.sql.go:542-580 | the row is replaced as a whole |
| OperatorServices.OperatorRepo.UpdateOperatorExitEpoch | pkg/repos/operators/query.sql.go:327-340 | only the exit epoch of an existing row changes |
| OperatorServices.OperatorRepo.UpdateOperatorState | pkg/repos/operators/query.sql.go:429-445 | only activity, weight and keys of an existing row change |
| OperatorServices.OperatorRepo.ListAllOperators | pkg/repos/operators/query.sql.go:279-300 | every address, each once |
| OperatorServices.EventListener.HandleOperatorRegistered | pkg/operator/event/listener.go:167-199 | is the machine's registration: a fresh row, inactive, weightless, without exit, active from the effective epoch |
| OperatorServices.EventListener.HandleOperatorDeregistered | pkg/operator/event/listener.go:202-227 | is the machine's deregistration: only the exit epoch of a known row changes, and a missing row stops the listener |
| OperatorServices.EpochUpdator.UpdateOperators | pkg/operator/epoch/updator.go:182-219 | the row loop computes the refresh of all rows, and fails exactly when a reading is missing |
| OperatorServices.EpochUpdator.HandleEpochUpdate | pkg/operator/epoch/updator.go:161-228 | commits a whole refresh or leaves the table as it was; the in-memory epoch moves even when the refresh fails later |
| OperatorServices.EpochUpdator.Tick | pkg/operator/epoch/updator.go:129-156 | a tick is a machine run: nothing, a begin, a begin and an abort, or a begin and a commit |
| BlockSearch.TimestampToBlockNumber | pkg/common/utils.go:138-244 | terminates, asks only for blocks up to the head; fails exactly when the head or a block of the jumps cannot be fetched; past genesis answers genesis; otherwise the nearest block that can be reached from where the jumps lead, later on a tie; with all blocks at hand that is nearest exactly unless the clamp is wrong |
| BlockSearch.BlocksInMeans | pkg/common/utils.go:151-175 | a jump is the whole number of average block times in the distance: 2 seconds on chain 137, 3 on 56, 12.5 elsewhere |
| BlockSearch.LandsClose | pkg/common/utils.go:165-190 | the jumps lead to a block before the timestamp or less than an average block time after it |
| BlockSearch.GenesisNearestMeans | pkg/common/utils.go:177-181 | the clamp's answer is right exactly if no later block lies within twice the distance |
| BlockSearch.PacedClampsBeforeGenesis | pkg/common/utils.go:168-190 | on a chain no slower than its average the clamp is reached only for timestamps at or before genesis |
| BlockSearch.UnpacedChainMissesNearest | pkg/common/utils.go:177-181 | a slow chain on which the clamp misses the nearest block |
| CacheMachine.NamesNeverCollide | internal/database/cache/cache.go:111-117 | store and lock names are injective in the key and never coincide |
| CacheMachine.RunKeepsEntries | internal/database/cache/cache.go:83-109 | in every interleaving a stored entry of the current version is the current value |
| CacheMachine.HitIsCurrentIff | internal/database/cache/cache.go:129-183 | once all changes are invalidated, a filled entry is current exactly if it was not stored late |
| CacheMachine.Transparent | internal/database/cache/cache.go:129-183 | if no fetch is in flight across a change, every later read and fill answers with the current source value |
| CacheMachine.LateFillServesStale | internal/database/cache/cache.go:83-109 | a fetch in flight across a change serves the old value after the invalidation |
| CacheMachine.SingleFlight | internal/database/cache/cache.go:143-150 | in every interleaving, the calls of the source made under a key's lock, plus the sessions now granted one, are as many as the times the lock vanished, plus one while it is present |
| CacheMachine.SingleFlightBetween | internal/database/cache/cache.go:143-150 | between two moments the source is called under the lock at most once more than sessions granted at the first and times the lock vanished since; while the lock stays, only by sessions granted already |
| CacheMachine.WaitersLeave | internal/database/cache/cache.go:151-166 | a waiter retries at most maxWaitingTime / minSleep + 1 times, and after each sleep can read again or leave |
| CacheClient.Client.Invalidate | internal/database/cache/cache.go:175-192 | removes both entries of every given key up to the first deletion that fails, and nothing else |
| CacheClient.Client.GetNoCache | internal/database/cache/cache.go:83-109 | a failed fetch gives up the lock, a successful one stores and answers |
| CacheClient.Client.GetWithExpire | internal/database/cache/cache.go:129-172 | waits exactly while others hold the lock and the waiting time is not up, boundedly, then answers from the store, or from the source, filling the keyspace, or times out |
| CacheClient.EndsMeans | internal/database/cache/cache.go:83-172 | each ending outcome by outcome: answers are the stored or fetched bytes, or the untouched target when those are empty; what Redis holds after every combination of failing writes |
| CacheRefinement.CallRefines | internal/database/cache/cache.go:129-172 | however a call of the client ends, the machine's session meeting the same keyspaces waits as often, gets the same answer and leaves the same keyspace |
| KeyOrder.AscendingUnique | pkg/operator/task/consensus.go:129-134 | a set of keys has one strictly ascending listing |
| KeyOrder.LessMeans | pkg/operator/task/consensus.go:134 | one key precedes another exactly if it is a proper beginning of it or has the smaller character where they first differ |
| KeyOrder.SortStrings | pkg/operator/task/consensus.go:134 | sorting keys without repetition yields that listing |
| KeyOrder.CalculateTotalWeight | pkg/operator/task/consensus.go:100-106 | the loop returns the sum, whichever order the map is walked in |
| KeyOrder.SumSmall | pkg/operator/task/consensus.go:100-106 | nothing weighs nothing, and one entry what it is |
| KeyOrder.SumRemove | pkg/operator/task/consensus.go:100-106 | any entry may be added first |
| KeyOrder.OneOfThem | pkg/operator/task/consensus.go:46-52 | weight beyond what the others hold comes from one of the given keys |
| TaskModel.RequestOfKeepsParams | pkg/operator/task/response.go:154-162 | answering a response means claiming what the response claimed |
| TaskModel.OwnResponseVerifies | pkg/operator/task/task.go:94-119 | an own response, carried through the message and re-parsed, passes verification under the sender's key |
| TaskModel.WireRoundTrip | pkg/operator/task/task.go:157-170 | the message carries every field of the response under its own name, and parses back to it |
| TaskModel.StoreMeans | pkg/operator/task/response.go:171-183 | a store files response and weight under that task and key and touches nothing else |
| TaskSafety.Safe | pkg/operator/task/response.go:89-168 | every interleaving keeps tracker, records, completed rows, publications and all goroutine states consistent |
| TaskSafety.TrackerConsistent | pkg/operator/task/response.go:171-183 | responses and weights have the same keys; each entry has its task id and verifies under its key for its own fields |
| TaskOrigin.EntriesAreAdmitted | pkg/operator/task/response.go:99-140 | over every run, each tracked response with its weight came in a message of the epoch then current from an operator whose row was active and held that key and weight, or is this node's own answer |
| TaskProvenance.CertificateSound | pkg/operator/task/consensus.go:43-76 | a record's signers are exactly the responders its task's bucket held at collection, each once, ascending; signature i and address i are signer i's; the weights that bucket stored when they were added up reach the threshold in force when it was read; bucket taken, weights, threshold and responses in that order of moments |
| TaskProvenance.RecordSaysWhatTriggerClaims | pkg/operator/task/consensus.go:66-78 | without assumptions, a record says, column by column, what the response that triggered its check says, which was tracked under a key that signed it |
| TaskProvenance.RunKeepsPast | pkg/operator/task/consensus.go:25-81 | every goroutine in a check and every record is explained by moments of the run in the order of the code |
| TaskProvenance.BucketsStay | pkg/operator/task/response.go:171-183 | inner maps stay those of their task, also after a cleanup dropped them |
| TaskSafety.CertificateCanonical | pkg/operator/task/consensus.go:125-160 | signatures and addresses do not depend on map order |
| TaskSafety.RecordsUnique | pkg/repos/consensus_responses/db.go:94-109 | one record per task id and per target, chain, block and key; a completed row has a record |
| TaskSafety.RecordsNeverChange | pkg/repos/consensus_responses/query.sql.go:22-50 | a record once written stays as it is in every later state |
| TaskSafety.PublishedVerifies | pkg/operator/task/task.go:157-170 | everything a node ever published verifies under its key after re-parsing |
| TaskValidity.StateStable | mock/src/MockStateManager.sol:376-389 | the chain's answer about an existing block survives every step of the world |
| TaskValidity.StateAtMeans | mock/src/MockStateManager.sol:376-389 | the chain's answer is the value last written for that user and key up to that block of that chain |
| TaskValidity.Valid | pkg/operator/task/task.go:71-102 | under the hypotheses chosen, nodes only sign what the chain answers and everything kept is a claim allowed under its task id |
| TaskValidity.SignersThatAreNodesTellTheTruth | pkg/operator/task/response.go:131-144 | when traffic is in range, but whatever task ids stand for and whoever holds the weight: every signer that runs a node signed a claim that holds on the chain, and a record triggered by a node's response is true |
| TaskValidity.RecordedValueIsChainState | pkg/operator/task/consensus.go:43-81 | every recorded value equals the chain state for its target, key and block |
| TaskValidity.RecordsAgree | pkg/operator/task/response.go:131-144 | any two nodes' records for one request agree |
| TaskHypotheses.AgreementNeeded | pkg/operator/task/consensus.go:43-76 | a run of messages in range, within the fault bound, that ends with a false record, because one task id stood for two claims |
| TaskHypotheses.FaultBoundNeeded | pkg/operator/task/consensus.go:43-52 | a run of agreeing messages that ends with a false record, because one key held the threshold |
| TaskLifecycle.PendingMeansConfirmed | pkg/operator/task/check.go:125-138 | a pending row's chain has reached block + required confirmations, in every run |
| TaskLifecycle.RetriesFindTheirRow | pkg/operator/task/check.go:48-60 | when a retry is about to be counted its row is in the table, although both loops, deletions and requests interleave |
| TaskPublication.PublicationBound | pkg/operator/task/task.go:48-51 | when ProcessTask calls for t do not overlap, the node takes at most one more publishing step for t than cleaning steps, counted over the run |
| TaskPublication.CleanupUntracks | pkg/operator/task/consensus.go:91-97 | a cleaning step leaves nothing tracked for the task, and other tasks alone unless it cleans everything |
| TaskOutcomes.StateReadSound | pkg/operator/task/task.go:190-231 | a value is only read at an attempt that saw the block, after nothing but passing failures |
| TaskProcessing.GetStateWithRetries | pkg/operator/task/task.go:190-231 | the first attempt that is not a passing failure decides, three of those give up |
| TaskOutcomes.StateReadMeans | pkg/operator/task/task.go:190-231 | of three attempts the first that does not pass decides: a value, a block in the future, or a refusal; three passing failures give up |
| RetryRounds.RoundMakesProgress | pkg/operator/task/check.go:48-74 | whichever database calls fail, a round never adds to the rounds left over all pending rows, and lowers them if one row's calls succeed |
| RetryRounds.SuccessfulRoundsSettle | pkg/operator/task/check.go:48-74 | over any number of rounds with any failures, a row still pending has seen fewer than three retries and successful rounds together, or no successful round; every other row is completed or deleted |
| RetryRounds.FewRoundsKeep | pkg/operator/task/check.go:48-74 | below three retries a row is never deleted, and while pending its count is the number of rounds that counted it |
| RetryRounds.ThreeRoundsSettle | pkg/operator/task/check.go:48-74 | three successful rounds of an initially pending row complete or delete it |
| TaskRefinement.MovesAreSteps | pkg/operator/task/consensus.go:25-88 | the actions of one goroutine in a row are steps of the machine, whatever else the node runs |
| TaskRefinement.CheckRefines | pkg/operator/task/consensus.go:25-88 | for every outcome, the machine's check in a row ends with the tables of the sequential check, and with the goroutine gone exactly when that panics or has nothing to go on to |
| TaskRefinement.AnswerRefines | pkg/operator/task/task.go:44-154 | the machine's answering steps in a row end with the tracker, signatures, tables and messages of ProcessTask |
| TaskRefinement.AcceptRefines | pkg/operator/task/response.go:118-146 | the machine's receiving steps in a row end with the tracker and tables of the sequential receipt |
| TaskRefinement.ResponseRefines | pkg/operator/task/response.go:89-168 | from arrival to the end, the machine's steps in a row do what the sequential handler does |
| ArrivalRefinement.DeliveryRefines | pkg/operator/task/response.go:89-168 | from the message on, whoever sent it and whatever comes of the calls, the machine's delivery and goroutine leave what ProcessResponse leaves; both let the same senders in |
| ArrivalRefinement.RequestRefines | pkg/operator/api/handlers.go:236-288 | a request's row is pending exactly if its block is confirmed at the head read, and the machine's insert and goroutine leave what the handler leaves |
| PollRefinement.RetryRefines | pkg/operator/task/check.go:48-74 | whatever comes of the database calls, the machine's retry steps for a row that is still there and the goroutine they start leave what HandleTimeout leaves, and the loop at the next row |
| PollRefinement.ConfirmRefines | pkg/operator/task/check.go:99-149 | whatever head is read and whether or not the update succeeds, the machine's confirmation steps for a row leave what HandleConfirmation leaves, and the loop at the next row |
| TaskProcessing.TaskProcessor.StoreResponseAndWeight | pkg/operator/task/response.go:171-183 | the tracker becomes the machine's store of the response |
| TaskProcessing.TaskProcessor.AlreadyProcessed | pkg/operator/task/response.go:202-209 | whether the key has a tracked response |
| TaskProcessing.TaskProcessor.CleanupTask | pkg/operator/task/consensus.go:91-97 | untracks the one task and no other |
| TaskProcessing.TaskProcessor.CleanupAllTasks | pkg/operator/task/check.go:171-179 | untracks everything |
| TaskProcessing.TaskProcessor.CollectSignaturesAndAddresses | pkg/operator/task/consensus.go:125-160 | returns the certificate of the responses, or fails exactly when a signer's operator is missing |
| TaskProcessing.TaskProcessor.MarkTaskAsCompleted | pkg/operator/task/consensus.go:108-122 | sets the status of an existing row |
| TaskProcessing.TaskProcessor.CreateConsensusResponse | pkg/repos/consensus_responses/query.sql.go:22-50 | inserts exactly if both uniqueness constraints and the columns allow |
| TaskProcessing.TaskProcessor.CheckConsensus | pkg/operator/task/consensus.go:25-88 | ends as the tracked responses, weights, threshold and tables dictate, and changes the tables only then; panics exactly on responses to compare with a threshold not yet read |
| TaskOutcomes.CheckDecides | pkg/operator/task/consensus.go:25-88 | a check writes one record, column by column, and completes its row exactly if the tracked weights reach the threshold, all operators are known, and neither the id nor target, chain, block and key have a record; otherwise it changes nothing |
| TaskOutcomes.CheckCertifies | pkg/operator/task/consensus.go:125-160 | the record holds signature and address of the i-th responder in i-th place, in ascending order |
| TaskOutcomes.SingleResponderDecides | pkg/operator/task/consensus.go:43-52 | a single responder below the threshold is never recorded, one at or above it is |
| TaskOutcomes.InsertsMeans | pkg/repos/consensus_responses/query.sql.go:22-50 | an insert succeeds exactly if key and value are decimal and neither the id nor the four columns are taken; what its columns say |
| TaskProcessing.TaskProcessor.ProcessTask | pkg/operator/task/task.go:44-154 | answers exactly when every gate is passed: signs the claimed value, stores, publishes a message that verifies, checks consensus; panics exactly when it has signed without an operator row for this node, or published without a threshold |
| TaskOutcomes.ReadsClaimMeans | pkg/operator/task/task.go:56-91 | a claim is signed for exactly if it names a block, its key converts, and its value is what the first deciding of three attempts finds |
| TaskOutcomes.AnswerDecides | pkg/operator/task/task.go:44-154 | what an answer leaves, with the claim signed and the response stored spelled out field by field |
| TaskOutcomes.PanicsMeans | pkg/operator/task/task.go:119-129 | the two panics: signed without an operator row for this node, or published without a threshold |
| TaskOutcomes.RowRequestMeans | pkg/operator/task/check.go:71-74 | a row is processed for what its columns say, under its id and epoch |
| TaskProcessing.TaskProcessor.Answer | pkg/operator/task/task.go:44-154 | only the row asked for can become completed, then with a record; nothing tracked is lost; past the gates the own response is tracked |
| TaskProcessing.TaskProcessor.AcceptResponse | pkg/operator/task/response.go:89-153 | stores under the sender's key exactly when every gate is passed, and then checks consensus |
| TaskProcessing.TaskProcessor.AcceptsMeans | pkg/operator/task/response.go:99-140 | the gates field by field: current epoch, active operator, nothing tracked, no record, decimal key and value, a signature of what the message says, a weight that converts |
| TaskProcessing.TaskProcessor.ProcessResponse | pkg/operator/task/response.go:89-168 | an accepted response not yet answered here is answered under the same gates, unless the check before panicked |
| TaskOutcomes.ReceiptDecides | pkg/operator/task/response.go:89-168 | a message is filed with its operator's weight, checked and answered exactly under those gates, and changes nothing otherwise |
| TaskProcessing.TaskProcessor.HandleConfirmation | pkg/operator/task/check.go:120-145 | one listed row is promoted and answered exactly when its head is reached and the update succeeds; the whole memory is the one ConfirmRefines gives for the machine |
| TaskOutcomes.ConfirmDecides | pkg/operator/task/check.go:108-145 | a listed row is promoted and answered exactly when its block lies the required number of blocks behind the head |
| TaskProcessing.TaskProcessor.CheckConfirmations | pkg/operator/task/check.go:99-149 | exactly the confirming rows whose head is reached and whose update succeeds are promoted and processed; a completed one has a record |
| TaskProcessing.TaskProcessor.IncrementRetryCount | pkg/repos/tasks/query.sql.go:172-178 | counts one retry and returns the row, nothing for a missing one |
| TaskProcessing.TaskProcessor.HandleTimeout | pkg/operator/task/check.go:48-74 | one listed row: a failing count leaves it alone, the limit untracks and deletes it, otherwise it is answered; the whole memory is the one RetryRefines gives for the machine |
| TaskOutcomes.RetryDecides | pkg/operator/task/check.go:48-74 | the three ways of a listed row, with three as the limit: left alone, deleted and untracked, or counted and answered |
| TaskProcessing.TaskProcessor.CheckTimeouts | pkg/operator/task/check.go:48-74 | one round: every pending row whose count succeeds is counted once; at the limit nothing of it stays tracked and, if the deletion succeeds, it is gone; below the limit it is answered if its gates are passed |
| ApiHandling.SameTaskIdIff | pkg/operator/api/helpers.go:39-51 | exactly when two requests hash the same bytes to a task id |
| ApiHandling.TaskIdLayout | pkg/operator/api/helpers.go:39-51 | the hashed bytes: 20 of the address, the low byte of chain and of requested block, then key and value in decimal |
| ApiHandling.TimestampsShareIdIff | pkg/operator/api/helpers.go:39-51 | requests by timestamp for one key share an id exactly if their values agree, whichever blocks they resolve to |
| ApiHandling.Handler.ResolveBlock | pkg/operator/api/handlers.go:177-187 | the given block, or what the timestamp search promises: nearest exactly unless the clamp is wrong |
| ApiHandling.Handler.SendRequest | pkg/operator/api/handlers.go:129-297 | a new row is pending exactly if its block is confirmed at the head read, claims the chain's value at the requested or nearest block, has that claim's id and replaces nothing; a pending row is answered like any request, and the reply is broken off exactly when that panics; known ids and failures belong to the resolved block and change nothing |

## Left out

- libp2p, gossip delivery, health checks, HTTP routing, command line, configuration, logging and metrics.
- Keccak, ECDSA, keystores and peer-id conversion: ideal functions. Protobuf marshalling is the identity on fields.
- Operator, blacklist and violation-counter lookups through dcache: the tables are read directly, and the operator found for a message is a parameter of its arrival.
- Scheduling below lock granularity (the unlocked iteration over inner maps is one step), the semaphore of the response handler, tickers and context timeouts.
- A panic ends its goroutine in TaskMachine, and failing database calls have no effect; that a panic in a polling loop ends the whole process is stated by the methods of TaskProcessing, and in the machine only means that no further step is taken.
- ProcessTask as called from the polling loops is a goroutine of its own in TaskMachine, which allows more interleavings than the code; TaskProcessing runs it inside the loop.
- CleanupOldTasks: never called by the node.
- NumericToInt64, NumericToUint64 (through floating point), Uint64ToBytes, BlockNumberToTimestamp and the stream helpers of the utilities file.
- Table columns are non-null, so numerics read back are valid.
- getHistoryBetween, getHistoryBefore, getHistoryAfter, getLatestHistory and the plain getters of the state manager.
- Request validation beyond its result: non-decimal keys, unknown chains and blocks in the future are refused before the modelled part.
- Uint64 overflow of block + required confirmations.
- SendRequest: the reply of the router's recovery after a panic is one outcome without content; the reads of the tables and the insert happen without interference; their interleavings are steps of TaskMachine.
- TimestampToBlockNumber: the float64 averages 12.5, 2 and 3 are exact fractions, which agrees with the code for time differences below 2^48.
- RowsStayInOrder: blocks from genesis on with epochs clear of the uint32 limit, as for every epoch result.
- CheckTimeouts: of other goroutines only completions happen, between listed rows; all their interleavings are steps of TaskMachine, which RetryRefines relates row by row.
- CheckConfirmations: no other goroutine changes the listed rows during the round; their interleavings are steps of TaskMachine, which ConfirmRefines relates row by row.
- CallRefines: other sessions act between attempts, not between the read of the store and the setting of the lock in one attempt; those interleavings are in CacheMachine.
- GetWithExpire: marshalling is modelled on bytes and strings, where it is the identity and never fails.
- RecordedValueIsChainState: holds under agreement of traffic and the fault bound, stated above, since the code checks neither.
- PublicationBound: overlapping calls of ProcessTask for one id can each publish; cleanups of everything count for every id.
