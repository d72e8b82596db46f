# KYVE protocol node: cache, bundles and rounds

This project models the core of a KYVE protocol node. A node keeps a
disk-bounded, height-indexed cache of a source chain's data items. It turns
consecutive cached heights into bundles. As uploader it stores a bundle on
Arweave and proposes it to the pool; as validator it rebuilds the proposed
bundle from its own cache and votes on whether the uploaded one matches.

Two revisions of the node are modelled side by side, each as written:

- the REST-based revision (`dist/src/index.js` with the file-per-key store
  `dist/src/utils/database.js`): modules `Storage`, `Cache` and `Coordinator`;
- the contract-based revision (`src/index.ts`, over a LevelDB table):
  modules `LevelWorker` and `LegacyNode`.

`Common` holds `Option` and bytes. `Decimal` models JavaScript's `String(n)`
for integers and base-10 `parseInt`, and proves the round trip the stores
rely on: a number written as text reads back as the same number.

The store is a class whose methods update its table in place. The loops that
change it (`cache`, `clearFinalizedData`, the worker) are methods, each proved
against a function of the old table (`Ingested`, `Evicted`, `Worked`). The
properties are proved as lemmas about those functions: what every key reads
afterwards, that the head never regresses, that eviction is idempotent, and
that ingestion and eviction commute while the head keeps up with the archived height. Network answers (pool snapshots,
`can_vote`, `can_propose`, downloads, upload results) are inputs. Sizing,
hashing, encoding and compression are function parameters that the model
does not interpret.

## Model

| member | source | states |
|---|---|---|
| Decimal.ShowNat | dist/src/utils/database.js:21 | the decimal text of a natural number is non-empty and all digits |
| Decimal.Show | dist/src/utils/database.js:21 | the text of an integer starts with a minus sign or a digit |
| Decimal.DigitRun | dist/src/index.js:229 | the digit run `parseInt` reads is a prefix of digits, followed by a non-digit or the end |
| Decimal.ParseShow | dist/src/index.js:229 | `parseInt(String(n)) == n` for every integer `n` |
| Decimal.ShowInjective | dist/src/utils/database.js:21 | distinct integers are written as distinct texts |
| Storage.FileNameStart | dist/src/utils/database.js:21 | a key's file name starts with a sign or a digit exactly when the key is a height |
| Storage.FileNameInjective | dist/src/utils/database.js:21-27 | distinct keys (heights, `head`, `tail`) never share a file |
| Storage.LookupAfterPut | dist/src/utils/database.js:20-25 | after `put(k, v)` key `k` reads `v` and every other key reads as before |
| Storage.LookupAfterDel | dist/src/utils/database.js:26-28 | after `del(k)` key `k` is missing and every other key reads as before |
| Storage.Database.constructor | dist/src/utils/database.js:11-19 | the store opens with the files already in its directory |
| Storage.Database.Put | dist/src/utils/database.js:20-22 | writes the key's file, overwriting any earlier value |
| Storage.Database.Get | dist/src/utils/database.js:23-25 | returns the stored value; a missing key is a failed read, not a default |
| Storage.Database.Del | dist/src/utils/database.js:26-28 | removes only the key's file; it fails exactly when the file is missing |
| Storage.Database.Drop | dist/src/utils/database.js:29-31 | leaves the store empty |
| Storage.PutGetDel | dist/src/utils/database.js:20-28 | a put is read back, and a read after a delete fails |
| Cache.ReadPointer | dist/src/index.js:226-232 | reads the stored pointer, falling back when its file is missing |
| Cache.GetDataItemAndSave | dist/src/index.js:263-272 | stores the fetched item; a failed fetch leaves the store unchanged |
| Cache.CacheStep | dist/src/index.js:223-258 | starts from `head` or else the archived height; over the disk budget nothing changes; otherwise the store becomes `Ingested` |
| Cache.SaveBatchLookup | dist/src/index.js:243-249 | a batch changes exactly its own heights whose fetch succeeded |
| Cache.IngestedLookup | dist/src/index.js:243-250 | after an iteration `head` is start + 10 even when fetches failed, fetched heights hold their items, and all other keys are unchanged |
| Cache.HeadAdvances | dist/src/index.js:245-250 | every completed iteration moves `head` forward by exactly the batch size |
| Cache.ClearFinalizedData | dist/src/index.js:327-345 | the store becomes `Evicted`: `[tail, heightArchived)` deleted, `tail` set; failed deletes are skipped and their number is exactly the heights of the range that had no file |
| Cache.DeleteRangeLookup | dist/src/index.js:335-343 | deleting a range removes exactly the heights in it |
| Cache.EvictedLookup | dist/src/index.js:327-345 | after eviction `tail` is the archived height, the old range is gone, and no key at or above the archived height (nor `head`) changes |
| Cache.EvictionIdempotent | dist/src/index.js:335-344 | evicting twice with the same archived height equals evicting once |
| Cache.IngestionAndEvictionCommute | dist/src/index.js:223-258 | with the archived height at or below the height ingestion starts from (`head`, or the archived height when none is stored), ingestion and eviction give the same store in either order |
| Cache.LaggingHeadLeaksHeights | dist/src/index.js:227-232 | concrete case: with `head` at 0, eviction at 100, one ingestion and eviction at 200 leave height 0 stored, and no later eviction removes it |
| Cache.ResumeHeight | dist/src/index.js:227-232 | the corrected start of an ingestion iteration is at least the archived height and at least the stored head, and is one of them |
| Cache.ResumingCacheStep | dist/src/index.js:223-258 | the iteration of `cache()` started at `ResumeHeight`: over the disk budget nothing changes, otherwise the store becomes `ResumedIngested` |
| Cache.ResumedIngestedLookup | dist/src/index.js:243-250 | after a resumed iteration `head` is the resume height plus 10, fetched heights of the batch hold their items, and every other key is unchanged |
| Cache.ResumedMatchesIngested | dist/src/index.js:227-232 | while the head is not behind the archived height, the resumed iteration is the iteration as written |
| Cache.ResumedIngestionAndEvictionCommute | dist/src/index.js:223-258 | with resumed ingestion, ingestion and eviction give the same store in either order, whatever the head |
| Cache.ResumedHeightsAreEvicted | dist/src/index.js:327-345 | with resumed ingestion, a height cached after an eviction is gone after the next eviction whose archived height is above it |
| Cache.ConsecutiveExtend | dist/src/index.js:287-290 | appending the next cached height keeps the bundle consecutive |
| Cache.SizeSumAppend | dist/src/index.js:286 | the accumulated size grows by the size of the appended entry |
| Cache.CreateBundle | dist/src/index.js:273-310 | consecutive cached entries from `toHeight`, `toHeight - fromHeight` equal to the length, at most 10000 items and under 20,000,000 bytes, stopping only at a cap or at a miss with the minimum met; otherwise it waits at the first missing height, having collected fewer than the minimum with neither cap reached |
| Cache.BundleBuiltNotShorter | dist/src/index.js:279-303 | no valid build stops before another valid build's length: the next height would have been cached and under both caps |
| Cache.BundleBuiltUnique | dist/src/index.js:273-310 | the cache, the start height, the minimum and the sizing fix what `createBundle` builds or waits on |
| Cache.LoadBundle | dist/src/index.js:311-326 | yields exactly `toHeight - fromHeight` encoded items in height order iff all are cached, else the first missing height (never skipped) |
| Coordinator.DownloadBundle | dist/src/index.js:384-396 | a bundle is returned iff the status is 200 or 202 and the download succeeded |
| Coordinator.ValidateRejectsSizeMismatch | dist/src/index.js:375-378 | differing byte sizes are invalid whatever the contents |
| Coordinator.ValidateSymmetric | dist/src/index.js:375-383 | the verdict does not depend on which bundle is the local one |
| Coordinator.ValidateAcceptsIdentical | dist/src/index.js:375-383 | an identical bundle of the same size is valid |
| Coordinator.ValidateDetectsChangedByte | dist/src/index.js:379-381 | with a collision-free hash, one changed byte makes the bundle invalid |
| Coordinator.ValidateProposal | dist/src/index.js:346-374 | meets `ValidationOutcome`: each download attempt follows a snapshot showing the proposal still current and goes through the 200/202 gate; it ends with a vote or a local miss iff the last attempt returned a bundle, every earlier attempt having failed; the vote is `validate` of the bundle rebuilt from the cache, a miss names the first uncached height; it ends on the first newer proposal, or when the snapshots (after exactly one per attempt) or the attempts run out |
| Coordinator.ValidationOutcomeUnique | dist/src/index.js:346-374 | the snapshots, attempts and cache fix how validation ends, how many snapshots it read and how many attempts it made |
| Coordinator.NextBundleProposal | dist/src/index.js:457-471 | waits until a snapshot shows a strictly newer `createdAt` |
| Coordinator.UploadBundle | dist/src/index.js:397-439 | the bundle meets everything `createBundle` promises; the node stops for lack of funds iff a bundle was built and the wallet cannot pay; a proposal is submitted iff a bundle was built and posted, with the transaction's id and byte size and the bundle's item count |
| Coordinator.AwaitTurn | dist/src/index.js:171-201 | meets `TurnOutcome`: it asks `can_propose` once per snapshot naming this node, proposes on the first yes, ends on the first newer proposal, and after a snapshot naming another node only waits for a newer proposal; it gives up only when the snapshots or the answers it needs next run out |
| Coordinator.TurnOutcomeUnique | dist/src/index.js:171-201 | the answers fix how the inner loop ends and how many snapshots and `can_propose` answers it used |
| Coordinator.TakeTurn | dist/src/index.js:171-201 | the loop's outcome, then on a yes the upload of `uploadBundleToArweave` on the snapshot that said so |
| Coordinator.FinishRound | dist/src/index.js:160-201 | on the decision snapshot: a newer proposal ends the round; otherwise it claims iff the uploader role is free, skips the snapshot read after the claim, and takes its turn |
| Coordinator.ValidateAndDecide | dist/src/index.js:141-201 | meets `RoundOutcome` on an unpaused pool: validation iff the uploader is set, is not self and `can_vote` holds, decision on the first snapshot or on the refresh after validation |
| Coordinator.ValidationPhaseUnique | dist/src/index.js:141-159 | the answers fix how validation ended and on which snapshot the round decides |
| Coordinator.DecisionPhaseUnique | dist/src/index.js:160-201 | from one decision snapshot, the answers fix the claim, the bundle, the submission, the end and the answers used |
| Coordinator.RoundOutcomeUnique | dist/src/index.js:117-201 | at most one report of a round fits the answers and the cache |
| Coordinator.RoundOutcomeFacts | dist/src/index.js:117-201 | a round uses no more answers than recorded; it starves only when some kind ran out; it submits only with a posted upload and at most 10000 items; it ends advanced only on a strictly newer `createdAt` |
| Coordinator.RunRound | dist/src/index.js:117-201 | a paused pool changes nothing and reports `PoolPaused`; otherwise finalized heights are evicted and the round meets `RoundOutcome` on the evicted cache |
| LevelWorker.LevelCache.constructor | src/index.ts:591-599 | the table opens with what is on disk |
| LevelWorker.LevelCache.Get | src/index.ts:269-275 | returns the stored text; a missing key is a failed read |
| LevelWorker.LevelCache.Batch | src/index.ts:282-289 | applies all operations of a batch together, in order |
| LevelWorker.LevelCache.ClearBelow | src/index.ts:156 | removes every key below the bound, key -1 included |
| LevelWorker.LevelCache.ClearFinalized | src/index.ts:156 | removes heights below the bound and keeps the worker's head |
| LevelWorker.ClearFinalizedEntries | src/index.ts:156 | a key survives iff it is the head key or at least the bound, with its value unchanged |
| LevelWorker.WorkerStep | src/index.ts:253-292 | over the disk budget nothing is fetched or written; otherwise it starts from key -1 or the pool height, and a fetched batch plus the new head are written at once while a failed fetch writes nothing |
| LevelWorker.WorkedHead | src/index.ts:282-289 | after a batch the head reads back as the old head plus the number of operations |
| LevelWorker.ApplyPutsLookup | src/index.ts:282-289 | a batch of consecutive puts stores exactly those heights and keeps every other key |
| LevelWorker.WorkerKeepsHeightsBelowHead | src/index.ts:277-290 | when items are stored under their heights, every height below the head stays stored |
| LevelWorker.ClearBelowDropsWorkerHead | src/index.ts:156 | the round's clear removes key -1, so the worker restarts from the pool height |
| LevelWorker.ClearBelowRestartsWorker | src/index.ts:156 | concrete case: a worker at 120 is sent back to 110 |
| LevelWorker.ClearFinalizedKeepsWorkerHead | src/index.ts:156 | the corrected clear leaves the worker's height unchanged |
| LegacyNode.ValidateDecidesBySizeThenHash | src/index.ts:306-321 | a size mismatch is invalid; equal sizes are valid iff the hashes agree; the verdict is symmetric |
| LegacyNode.ValidateRejectsChangedItem | src/index.ts:316-318 | with a collision-free hash, a changed item makes the bundle invalid |
| LegacyNode.SendVote | src/index.ts:460-466 | a vote is sent iff the node can vote, and it is the given vote |
| LegacyNode.RoundOutcomeUnique | src/index.ts:138-251 | the round's description fixes its end, submission, claim and vote |
| LegacyNode.CompleteRound | src/index.ts:158-238 | ends by lack of funds iff the node uploads and cannot pay; submits iff it uploads and the upload returned a transaction; claims iff the timeout fires and self is not the uploader; votes iff another node uploaded, the status is 200/202, the data came back and the node can vote |
| LegacyNode.RunRound | src/index.ts:138-251 | paused or not a validator: nothing changes and the round ends so; otherwise every key below the pool height, key -1 included, is removed and the round completes as described |
| LegacyNode.RunRoundKeepingHead | src/index.ts:156 | the same round, with an eviction that keeps the worker's head |
| LegacyNode.ToBaseUnits | src/index.ts:628-630 | scaling to base units keeps `NaN` as `NaN` |
| LegacyNode.SetupNodeStake | src/index.ts:618-661 | zero is fatal, below the minimum exits, otherwise it stakes or unstakes exactly the positive difference that reaches the desired stake, and sends nothing when equal (or when the text is not a number) |
| LegacyNode.InvalidStakeKeepsCurrentStake | src/index.ts:627-660 | a desired stake that is not a number ends as "already staked" |
| LegacyNode.SetupNodeStakeChecked | src/index.ts:636-639 | a stake that is not a number is rejected; any transaction sent reaches the desired stake, which is non-zero and at least the minimum |
| LegacyNode.SetupNodeCommission | src/index.ts:736-773 | an update is sent iff the scaled commission differs from the current one |
| LegacyNode.CommissionRangeCheckNeverRejects | src/index.ts:741 | the range check as written never rejects a commission |
| LegacyNode.CommissionOf150IsSent | src/index.ts:741-760 | concrete case: a commission of 150 percent is sent to the pool |
| LegacyNode.SetupNodeCommissionChecked | src/index.ts:741-750 | rejects exactly the commissions outside 0..100 percent; updates only on a change |

## Left out

- Process and network plumbing: CLI options, logging and metrics, `getPool`/`fetchPoolState` version checks, the `verifyNode` idle loop, `checkIfNodeIsValidator` (its answer is the round input `isValidator`), gas pricing and Arweave transaction creation, tagging and signing. Their results are inputs.
- `calculateUploaderWaitingTime` (floating-point `Math.log2`) and `generateRandomName` (a PRNG over word lists) are not part of this model.
- `object-sizeof`, `object-hash`, `JSON.stringify`, gzip, `formatBundle` and `parseBundle` are the function parameters `sizeOf`, `hash`, `encode`, `pack` and `parseBundle`.
- `du` is not called: the used disk space is an input.
- Concurrency: `Promise.all` in `cache()` runs the ten fetches concurrently; the model runs them in height order, which gives the same store because they write distinct keys. The worker and the round are modelled as separate calls on the same store, not interleaved.
- Sleeps and endless retries become explicit outcomes: `AwaitingItem`/`Missing` (and the round ends `BundleAwaitingItems`/`WaitingForCache`) for a cache miss, `Starved`/`OutOfObservations`/`NoAnswers` when the recorded network answers run out.
- Coordinator.RunRound: any failure that `uploadBundleToArweave` catches before or at the post (creating, signing, the balance query, the post itself) is the input `UploadFailed`, ending `UploadNotPosted`; a failure of the proposal submission after a post is not modelled. The upload-timeout race in `waitForNextBlockInstructions` is the input `timedOut`.
- Cache.IngestionAndEvictionCommute: holds only while the stored head is at or above the archived height. The source does not keep that so: after downtime or a disk-budget stall `head` lags, ingestion writes heights below `tail`, and no later eviction deletes them (see Findings; `Cache.ResumedIngestionAndEvictionCommute` needs no such hypothesis).
- Cache.CacheStep: a thrown error after the disk check (for example from `db.put("head")`) is not modelled; the store's own operations do not fail in the model.
- Cache.ReadPointer: a stored `head` or `tail` that is not a number makes `parseInt` return `NaN` in the source; the model falls back to the archived height instead.
- LevelWorker.WorkerStep: requires that a stored key -1 parses as a number; the source would go on with `NaN`.
- Decimal.ParseInt: leading whitespace, `0x` prefixes and exponent notation of `String(n)` for very large numbers are not modelled.
- LevelWorker.LevelCache.ClearBelow: LevelDB compares keys as strings, so `clear({lt})` may also keep or remove heights whose text sorts differently from their value; the model uses integer order. Key -1 sorts below every height in both orders.
- LevelDB values are binary buffers; the model stores their text.
- The `Entry` values cached by the REST revision are the runtime's JSON items; the model does not look inside them.
- LegacyNode.SetupNodeStake: amounts are exact decimals (`real`), as `BigNumber` is; the error path of `selfStake`/`selfUnstake` is not modelled.

## Findings

| source | as written | input that shows it | evidently intended | confidence | as-written member | corrected member |
|---|---|---|---|---|---|---|
| src/index.ts:156 | `db.clear({ lt: height })` also removes key -1, where the worker keeps its head | key -1 holds "120", height 110 is cached, pool height 110: after the clear the worker restarts from 110 | evict heights below the pool height and keep the worker's head (proved for this eviction by `LevelWorker.ClearFinalizedKeepsWorkerHead`) | high, not executed | LevelWorker.ClearBelowRestartsWorker | LegacyNode.RunRoundKeepingHead |
| src/index.ts:741 | `parsedCommission.lt(0) && parsedCommission.gt(100)`, on the value already scaled by 10^18 | commission "150": no number is both below 0 and above 100, so 150 × 10^18 is sent | reject percentages outside 0..100 (`or`, on the unscaled value) | high, not executed | LegacyNode.CommissionRangeCheckNeverRejects | LegacyNode.SetupNodeCommissionChecked |
| src/index.ts:627-639 | `new BigNumber(text)` yields `NaN` for text that is not a number instead of throwing, so the invalid-amount branch is never taken | stake "abc": `NaN` is not zero, not below the minimum, neither greater nor less than the current stake, so it ends as "already staked" | exit with "invalid staking amount" | medium (depends on the library's debug mode), not executed | LegacyNode.InvalidStakeKeepsCurrentStake | LegacyNode.SetupNodeStakeChecked |
| dist/src/index.js:227-232 | `cache()` resumes at the stored `head` even when it lags behind the archived height, while eviction only deletes from `tail` upwards | `head` 0, no `tail`, archived height 100: eviction sets `tail` to 100, ingestion writes heights 0-9, eviction at 200 deletes only `[100, 200)`, so height 0 is never deleted | resume ingestion at the archived height when the head lags behind it | medium (depends on the head lagging, which downtime or the disk budget causes), not executed | Cache.LaggingHeadLeaksHeights | Cache.ResumedHeightsAreEvicted |
