# Chunked range downloads and a spreadsheet diff, in Dafny

This project models two parts of a React demo application and proves properties of them.

- **The chunked, retrying range downloader** `ChunksDownload`, in two versions:
  - the current one (`src/app/components/Case4/model.ts`, module `ParallelDownload`). It probes chunk 0 and reads the `Content-Range` answer. It plans contiguous byte ranges, sent as `Range: bytes=a-b` headers. It then runs a pool in which every completion starts at most one replacement fetch. Statuses are `not-start | fetching | success | fail`, with a `fetchCount` retry budget.
  - the earlier batch one (`src/app/components/Case4/util.ts`, module `BatchDownload`). It uses the same probe. Its plan repeats one boundary byte per chunk. It works in rounds: each round requests the first `maxParallel` chunks lacking data and waits for all of them, then a rejected chunk gets `retryCount += 1`.
- **The spreadsheet grid diff** `Diff` (`src/app/components/Case5/model.ts`, module `GridDiff`). It matches header columns by name and body rows by the value in the `rowKey` column. It merges both matches into one `GridDiffDict` and labels every cell of both sheets `unchanged | diff | origin_delete | target_append`.

Shared helpers:

- `Basics` holds the option and result types and substring search.
- `Decimal` holds decimal numerals, for the range texts and the dictionary keys.
- `HttpRange` holds the `bytes=a-b` request text (section 14.2 of RFC 9110). It also models the regular expression `bytes (\d+)-(\d+)\/(\d+)`, which reads the `Content-Range` value (section 14.4 of RFC 9110) as an unanchored, leftmost match.

Each downloader is a `class` holding the fields of the TypeScript class. The network, the abort controllers, the event emitter and the browser download are modelled by fields of the class:

- a counter of created controllers (`nextToken`);
- the set of aborted controllers (`aborted`);
- the log of emitted events (`events`, current version only);
- the log of `getChunk` calls (`requests`);
- the log of files handed to the browser (`deliveries`).

A value datatype (`Snapshot`, `BatchState`) mirrors the whole object. Every method ensures that the new `State()` is a named transition function of the old one: `Launched`, `Completion`, `Retried`, `Stopped`, `Downloaded`, `RoundStarted`, `RoundFinished`, and so on. The lemmas about those functions state what the source promises.

The asynchronous parts are inputs:

- `chunkParallel` is `OnCompletion(chunkIndex, ret)`, called by the network for a chunk in flight.
- The answer to the probe is a parameter of `Download`.
- In the batch version, the results of the round's `Promise.all` are the input of `FinishRound`.

## Model

Paths are relative to the repository root.

| member | source | states |
|---|---|---|
| Basics.Contains | src/app/components/Case4/model.ts:228 | `includes` holds exactly when the pattern occurs at some position of the text |
| Decimal.ParseNatToString | src/app/components/Case4/model.ts:142-146 | the decimal text written into a range or a dictionary key reads back as the same number |
| Decimal.NatToStringInjective | src/app/components/Case5/model.ts:47-53 | different numbers give different decimal texts |
| Decimal.NatToString | src/app/components/Case4/model.ts:146 | a number prints as a non-empty digit run without a leading zero |
| HttpRange.RangeTextRoundTrip | src/app/components/Case4/model.ts:146 | the `first-last` range text of a chunk parses back to exactly its range |
| HttpRange.RangeHeaderInjective | src/app/components/Case4/model.ts:312 | two chunks with different ranges never send the same `Range: bytes=…` header |
| HttpRange.DigitRunExact | src/app/components/Case4/model.ts:118 | a `(\d+)` capture is the longest digit run at its position, when that run is followed by a non-digit |
| HttpRange.FirstMatchNone | src/app/components/Case4/model.ts:118-124 | the `Content-Range` expression finds nothing exactly when it matches at no position |
| HttpRange.FirstMatchLeftmost | src/app/components/Case4/model.ts:118 | a match of the expression is the one at the leftmost position where it matches |
| HttpRange.MatchAtStart | src/app/components/Case4/model.ts:118 | the expression matches `bytes x-y/z` at its start and captures the three numbers |
| HttpRange.ContentRangeRoundTrip | src/app/components/Case4/model.ts:112-126 | a well-formed `bytes start-end/total` value parses to its three numbers, so the total size is read correctly |
| HttpRange.FieldAfter | src/app/components/Case4/model.ts:118 | a digit capture followed by its separator yields the number and the position after the separator |
| HttpRange.TailAfter | src/app/components/Case4/model.ts:118 | the final `(\d+)` capture reads the trailing digits |
| ParallelDownload.MergeOption | src/app/components/Case4/model.ts:38-56 | every missing option takes its default: 3 MiB chunks, a pool of 10, 3 automatic retries, a 10 percent first-frame progress; a given one is kept |
| ParallelDownload.CheckChunkValid | src/app/components/Case4/model.ts:224-236 | a chunk is rejected exactly when its text contains `{"code"`, and always with the message `content json parse error` |
| ParallelDownload.GetChunkResult | src/app/components/Case4/model.ts:238-266 | `getChunk` never throws: it is fulfilled with the body and headers exactly when the response passes the check; a network error becomes a rejection with its message |
| ParallelDownload.CountStatus | src/app/components/Case4/model.ts:193 | the `successChunks` count never exceeds the number of chunks |
| ParallelDownload.CountStatusUpdate | src/app/components/Case4/model.ts:193 | replacing one chunk changes the count of a status by that chunk's contribution only |
| ParallelDownload.CountStatusAll | src/app/components/Case4/model.ts:193 | when every chunk has the status, the count is the length of the list |
| ParallelDownload.CountStatusNone | src/app/components/Case4/model.ts:193 | when no chunk has the status, the count is 0 |
| ParallelDownload.NeedFrom | src/app/components/Case4/model.ts:268-269 | `getNeedChunkInfoList` keeps exactly the `not-start` and `fail` chunks, in index order |
| ParallelDownload.SelectedIsFirstEligible | src/app/components/Case4/model.ts:361 | the pool picks the first `maxParallel` eligible chunks, in index order; no eligible chunk is passed over for a later one, and all of them are picked when fewer than `maxParallel` exist |
| ParallelDownload.StartAllKeeps | src/app/components/Case4/model.ts:363-365 | starting eligible chunks keeps every chunk at its own index and keeps every chunk's controller |
| ParallelDownload.StartAllCount | src/app/components/Case4/model.ts:363-365 | starting `n` eligible chunks puts exactly `n` more chunks in flight and loses no success |
| ParallelDownload.StartChunks | src/app/components/Case4/model.ts:363-380 | the `forEach` over the selection changes the list as `StartAll` says and sends one request per selected chunk, in order, with its range as the `Range` header, the file hash, the attempt count and the chunk's own controller |
| ParallelDownload.FetchingTokens | src/app/components/Case4/model.ts:185-187 | the controllers an abort loop cancels are exactly those of the chunks in flight |
| ParallelDownload.ScanFrom | src/app/components/Case4/model.ts:288-320 | the scan stops at the first chunk that is past the budget or eligible: past the budget it fails the transfer, eligible (within budget) it starts that chunk, and it finds neither exactly when no chunk qualifies |
| ParallelDownload.Scan | src/app/components/Case4/model.ts:288-320 | the loop of the scan decides what `ScanFrom` says |
| ParallelDownload.SettledMeansNoFailure | src/app/components/Case4/model.ts:322-348 | when the scan starts nothing, "all chunks succeeded or failed" already means "all succeeded", and no chunk is past the budget |
| ParallelDownload.OverBudgetNeverSettles | src/app/components/Case4/model.ts:290-297 | once a chunk is past the budget the scan never reports the list settled |
| ParallelDownload.ResetClearsBudget | src/app/components/Case4/model.ts:170-174 | `retry` resets to 0 exactly the `fetchCount`s above the budget and leaves every other chunk as it was; afterwards no chunk is past the budget and no status has changed |
| ParallelDownload.CeilBounds | src/app/components/Case4/model.ts:139 | `Math.ceil(total/cs)` chunks of `cs` bytes cover `total`, and one chunk fewer does not |
| ParallelDownload.BodyChunksKeep | src/app/components/Case4/model.ts:140-153 | the body chunks are `not-start`, hold no data, carry the indices from 1 on and fresh controllers |
| ParallelDownload.PlanWellFormed | src/app/components/Case4/model.ts:139-155 | chunk 0 is `0-cs`; chunk k covers `k*cs+1` to `min((k+1)*cs, total)`; there are `ceil(total/cs)` chunks, each at its own index; every range is non-empty; each range starts one byte after the previous one ends; the last ends at `total`, one past the file's last byte |
| ParallelDownload.PlanCovers | src/app/components/Case4/model.ts:139-155 | every position from 0 to `total` (one past the file's last byte `total - 1`) falls in exactly one range of the plan |
| ParallelDownload.PlanOverrunsFile | src/app/components/Case4/model.ts:139-143 | as written, when `total = q*cs + 1` with `q >= 1`, the last planned range is `total-total`, past the file's last byte |
| ParallelDownload.FixedPlanExact | src/app/components/Case4/model.ts:139-155 | the corrected plan has `ceil((total-1)/cs)` chunks at their own indices; every range is non-empty and lies below `total`; each starts one byte after the previous one ends; the last ends at `total - 1` |
| ParallelDownload.FixedPlanCovers | src/app/components/Case4/model.ts:139-155 | every byte of the file falls in exactly one range of the corrected plan |
| ParallelDownload.RangesIncrease | src/app/components/Case4/model.ts:142-143 | the ranges of a well-formed plan are ordered and disjoint |
| ParallelDownload.CoveringChunk | src/app/components/Case4/model.ts:142-143 | finds the one chunk whose range holds a given byte |
| ParallelDownload.CollectParts | src/app/components/Case4/model.ts:328-335 | the parts are the data of every chunk in index order; the "not reach" error arises exactly when some chunk has no data |
| ParallelDownload.Completed | src/app/components/Case4/model.ts:278-283 | a fulfilled completion stores the data and marks the chunk `success`; a rejected one marks it `fail`, keeping the old data |
| ParallelDownload.CompletedKeeps | src/app/components/Case4/model.ts:276-285 | recording a completion keeps the list well formed and every controller, moves the chunk out of `fetching`, loses no success and keeps a broken budget broken |
| ParallelDownload.LaunchedConsistent | src/app/components/Case4/model.ts:355-381 | `getChunksParallel` keeps indices, controllers and requests consistent |
| ParallelDownload.RequestsForBelow | src/app/components/Case4/model.ts:367-379 | the requests of the pool use only controllers already created |
| ParallelDownload.AppendPlanConsistent | src/app/components/Case4/model.ts:139-155 | appending the plan to the probe's chunk keeps the state consistent |
| ParallelDownload.PlannedConsistent | src/app/components/Case4/model.ts:126-157 | the part of `download` after the size is known keeps the state consistent |
| ParallelDownload.DownloadedConsistent | src/app/components/Case4/model.ts:58-157 | `download` keeps the state consistent |
| ParallelDownload.ScannedConsistent | src/app/components/Case4/model.ts:288-348 | the scan keeps the state consistent, a retry's fresh controller included |
| ParallelDownload.CompletionConsistent | src/app/components/Case4/model.ts:271-349 | `chunkParallel` keeps the state consistent |
| ParallelDownload.ScannedBounds | src/app/components/Case4/model.ts:288-348 | the scan starts at most one chunk, sends at most one request, loses no success, and only appends events |
| ParallelDownload.LaunchedCountsGrow | src/app/components/Case4/model.ts:363-365 | starting the pool never lowers a chunk's `fetchCount` |
| ParallelDownload.ScannedCountsGrow | src/app/components/Case4/model.ts:288-320 | the scan never lowers a chunk's `fetchCount` |
| ParallelDownload.CompletionCountsGrow | src/app/components/Case4/model.ts:271-349 | a completion never lowers a chunk's `fetchCount`; only `retry` resets one |
| ParallelDownload.CompletionBoundsPool | src/app/components/Case4/model.ts:271-349 | a completion never grows the pool: chunks in flight do not increase, successes do not decrease, at most one request goes out, and events are only appended |
| ParallelDownload.FailOnlyOverBudget | src/app/components/Case4/model.ts:290-297 | a completion emits `download-fail` only when some chunk is past its budget, and then the transfer has ended; the closing `download-fail` is unreachable |
| ParallelDownload.OverBudgetNoSuccess | src/app/components/Case4/model.ts:288-297 | once a chunk is past its budget no completion emits `download-success` or delivers anything, and the budget stays broken |
| ParallelDownload.SuccessDeliversAll | src/app/components/Case4/model.ts:322-345 | a completion that emits `download-success` has every chunk `success`, delivers all their data in index order and ends the transfer; any other completion delivers nothing |
| ParallelDownload.RetryKeeps | src/app/components/Case4/model.ts:163-177 | the reset of `retry` keeps the state consistent |
| ParallelDownload.RetrySendsNothing | src/app/components/Case4/model.ts:163-177 | `retry` does nothing while a transfer runs; after one ended it only clears the broken budgets, and sends no request because `getChunksParallel` returns while `terminated` |
| ParallelDownload.StoppedAbortsInFlight | src/app/components/Case4/model.ts:182-190 | `terminate` aborts the controllers the chunks in flight hold, and no other. A retried chunk keeps the controller of its first attempt while its retry runs on a fresh one (model.ts:316), so the retry's request is not aborted. It clears the name and the content type, emits `terminate` and sets `terminated`; it throws without an option and then leaves `terminated` as it was. The list, the requests, the deliveries, the hash, the size, the option and the controller count stay as they were. Afterwards every completion is ignored |
| ParallelDownload.DownloadOutcomes | src/app/components/Case4/model.ts:58-126 | `download` throws before `updateOption`. It does nothing while a transfer runs. Each of its errors (`content-range not found`, protocol error, invalid array length) arises exactly in its own situation, after only the `chunk-progress` event and with nothing delivered. A rejected probe ends the transfer with `download-fail` |
| ParallelDownload.DownloadErrorLeavesBusy | src/app/components/Case4/model.ts:112-126 | a `download` that throws after the probe emits no terminal event: the `chunk-progress` sent before the probe is all it adds to the log, and it delivers nothing. It leaves `terminated` false, so every later `download` returns at once without a request |
| ParallelDownload.PlannedSmall | src/app/components/Case4/model.ts:129-137 | a file that fits the probe is delivered from the probe's data and `download-success` is emitted |
| ParallelDownload.DownloadSmallFile | src/app/components/Case4/model.ts:129-157 | a small file sends only the probe's request, delivers the probe's data once, emits one `chunk-progress` and one `download-success`, and plans no further chunk |
| ParallelDownload.DownloadReachesPool | src/app/components/Case4/model.ts:58-157 | a larger file reaches `getChunksParallel` with the planned list |
| ParallelDownload.PoolPlannedFields | src/app/components/Case4/model.ts:68-155 | that list is the probe's chunk (`success`, with the data) followed by the body chunks; the name, type, hash and size come from the probe's headers |
| ParallelDownload.DownloadStartsPool | src/app/components/Case4/model.ts:58-157 | `download` of a larger file starts the first `maxParallel` eligible chunks and requests each of them once; the transfer stays open and nothing is delivered |
| ParallelDownload.PlanStartsPool | src/app/components/Case4/model.ts:139-157 | starting the plan puts exactly the selected chunks, at most `maxParallel`, in flight |
| ParallelDownload.ChunksDownload.constructor | src/app/components/Case4/model.ts:26-36 | a new downloader is terminated, with an empty list, empty names and hash, no option and nothing sent |
| ParallelDownload.ChunksDownload.UpdateOption | src/app/components/Case4/model.ts:38-56 | the merged option replaces the previous one; nothing else changes |
| ParallelDownload.ChunksDownload.EmitDownloadRet | src/app/components/Case4/model.ts:192-210 | one event with the current counts is appended; every status except `chunk-progress` sets `terminated` |
| ParallelDownload.ChunksDownload.AbortFetching | src/app/components/Case4/model.ts:292-294 | the controllers of the chunks in flight join the aborted set |
| ParallelDownload.ChunksDownload.GetChunksParallel | src/app/components/Case4/model.ts:355-381 | the new state is `Launched` of the old one |
| ParallelDownload.ChunksDownload.OnCompletion | src/app/components/Case4/model.ts:271-349 | the new state is `Completion` of the old one |
| ParallelDownload.ChunksDownload.StartOne | src/app/components/Case4/model.ts:299-318 | a first attempt reuses the chunk's controller; a retry sends a fresh controller that the chunk does not keep |
| ParallelDownload.ChunksDownload.Retry | src/app/components/Case4/model.ts:163-177 | the new state is `Retried` of the old one |
| ParallelDownload.ChunksDownload.Terminate | src/app/components/Case4/model.ts:182-190 | the new state is `Stopped` of the old one, with its error when there is no option |
| ParallelDownload.ChunksDownload.Download | src/app/components/Case4/model.ts:58-157 | the new state and the error are `Downloaded` of the old state and the probe's answer |
| BatchDownload.MergeOption | src/app/components/Case4/util.ts:33-49 | every missing option takes its default: 3072 KiB chunks, a pool of 10, 3 automatic retries |
| BatchDownload.CountData | src/app/components/Case4/util.ts:216 | the count of chunks holding data is at most the length of the list |
| BatchDownload.CountDataAll | src/app/components/Case4/util.ts:245-250 | when every chunk holds data, `successChunks == totalChunks` |
| BatchDownload.LackingFrom | src/app/components/Case4/util.ts:226 | the filter keeps exactly the chunks without data, in index order |
| BatchDownload.RoundSelectionIsFirstLacking | src/app/components/Case4/util.ts:225-226 | a round asks for the first `maxParallel` chunks without data, in index order, whatever their retry counts; the selection is empty exactly when every chunk holds data or the pool is 0 |
| BatchDownload.SelectionSkipsNone | src/app/components/Case4/util.ts:226 | no chunk without data is passed over for a later one |
| BatchDownload.SelectionEmpty | src/app/components/Case4/util.ts:226-229 | a selection shorter than the pool holds every chunk without data |
| BatchDownload.ChunksDownload.SelectRound | src/app/components/Case4/util.ts:226 | the loop computes the round's selection |
| BatchDownload.AppliedSelection | src/app/components/Case4/util.ts:266-276 | results that answer the selection change exactly the selected chunks: a fulfilled one gets its data, a rejected one one more retry; every other chunk is unchanged |
| BatchDownload.AppliedOk | src/app/components/Case4/util.ts:266-276 | applying the results throws exactly when some result names an index outside the list |
| BatchDownload.AppliedStaysFailed | src/app/components/Case4/util.ts:266-276 | once a result throws, the later ones are never applied |
| BatchDownload.AppliedKeeps | src/app/components/Case4/util.ts:266-276 | applying results changes neither indices nor controllers |
| BatchDownload.ChunksDownload.ApplyResults | src/app/components/Case4/util.ts:266-276 | the in-place `forEach` leaves the list `Applied` says |
| BatchDownload.RoundAnswered | src/app/components/Case4/util.ts:266-276 | after a round the asked-for chunks take their results and every other chunk, so every chunk holding data, is unchanged |
| BatchDownload.ChunksDownload.GatherParts | src/app/components/Case4/util.ts:230-240 | the parts are every chunk's data, or the "not reach" error when some chunk has none |
| BatchDownload.ChunksDownload.AnyWithinBudget | src/app/components/Case4/util.ts:278-283 | the loop answers whether some chunk without data is still within its budget |
| BatchDownload.RoundStartedOutcomes | src/app/components/Case4/util.ts:214-263 | once terminated a round resolves to `terminate` with the chunks holding data and sends nothing; with every chunk holding data it delivers all parts and resolves to `success` with `successChunks == totalChunks`; with a pool of 0 it hits "not reach"; otherwise it sends exactly one request per selected chunk, with its range, its own controller and no `data` |
| BatchDownload.RoundFinishedOutcomes | src/app/components/Case4/util.ts:266-291 | after the results are applied, another round starts exactly while some chunk without data is within its budget; otherwise the result is `fail` with the count of chunks holding data |
| BatchDownload.RetryResets | src/app/components/Case4/util.ts:138-147 | `manualRetry` resets to 0 exactly the `retryCount`s above the budget and leaves every other field, and the data, alone |
| BatchDownload.StoppedEnds | src/app/components/Case4/util.ts:149-156 | `terminate` aborts every chunk's controller and clears the name and type. The next round and a manual retry then resolve to `terminate` with the chunks holding data. A round in flight, whose aborted requests come back rejected, resolves to `terminate` while some chunk without data is within its budget and to `fail` otherwise (or throws on an unknown chunk). None of them sends anything |
| BatchDownload.BatchPlanShape | src/app/components/Case4/util.ts:107-134 | the plan has `ceil(total/cs)` chunks at their own indices; chunk k covers `k*cs` to `min((k+1)*cs, total)`; every range is non-empty; each range starts where the previous one ends, so each boundary byte is in two ranges; the last ends at `total` |
| BatchDownload.BatchPlanRepeatsBoundaryByte | src/app/components/Case4/util.ts:121-122 | for a 1 KiB chunk size and a 2049-byte file, byte 1024 is in both chunk 0 and chunk 1 |
| BatchDownload.BudgetUpdate | src/app/components/Case4/util.ts:270-274 | replacing one chunk changes the attempts left by that chunk's terms only |
| BatchDownload.BudgetBound | src/app/components/Case4/util.ts:278-283 | the attempts left are bounded by the length times one more than the budget |
| BatchDownload.AppliedSpends | src/app/components/Case4/util.ts:266-283 | a round whose chunks all lack data and are within budget spends at least one attempt per chunk asked for |
| BatchDownload.BudgetedFrom | src/app/components/Case4/util.ts:278-283 | the corrected selection keeps exactly the chunks without data that are within their budget, in index order |
| BatchDownload.BudgetedNonEmpty | src/app/components/Case4/util.ts:278-283 | whenever another round runs, the corrected selection is not empty |
| BatchDownload.BudgetedRoundsTerminate | src/app/components/Case4/util.ts:278-283 | with the corrected selection every further round spends an attempt, so the rounds end |
| BatchDownload.StarveRoundStarts | src/app/components/Case4/util.ts:225-263 | in the starvation example (a 2049-byte file in 1 KiB chunks, budget 0, pool 1, chunk 1 past its budget after `k` failures) the round asks for chunk 1 only |
| BatchDownload.StarveSelection | src/app/components/Case4/util.ts:226 | in the starvation example the selection is chunk 1 |
| BatchDownload.StarveApplied | src/app/components/Case4/util.ts:266-283 | a rejected chunk 1 leaves chunk 2 lacking data within its budget, so another round runs |
| BatchDownload.StarveBudget | src/app/components/Case4/util.ts:278-283 | in the starvation example the attempts left stay at 1 |
| BatchDownload.RoundsCanStarve | src/app/components/Case4/util.ts:278-283 | as written, a rejected chunk 1 leads to the same round again with its retry count one higher: every round asks for chunk 1 and never for chunk 2, and the attempts left never shrink |
| BatchDownload.DownloadFailures | src/app/components/Case4/util.ts:51-120 | `download` clears `terminated` and sends the probe with the configured data first. A rejected probe throws its reason. A missing `Content-Range`, an unmatched one, and a zero chunk size with data left each throw in exactly their own situation |
| BatchDownload.DownloadSmallFile | src/app/components/Case4/util.ts:92-105 | a file that fits the probe resolves to `success` with one chunk of one, is delivered from the probe's data, and no chunk list is built |
| BatchDownload.DownloadLargeReachesRound | src/app/components/Case4/util.ts:107-135 | a larger file reaches `getChunksParallel` with the planned list |
| BatchDownload.DownloadLargeFile | src/app/components/Case4/util.ts:107-134 | the list is the probe's chunk, keeping its data, followed by the body chunks with fresh controllers, `ceil(total/cs)` in all |
| BatchDownload.DownloadLargeFirstRound | src/app/components/Case4/util.ts:107-135 | the first round of a larger file starts at chunk 1, or hits "not reach" when the pool is 0 |
| BatchDownload.FirstRoundAsksChunkOne | src/app/components/Case4/util.ts:225-263 | with the probe's chunk holding data and chunk 1 lacking it, the first round starts at chunk 1 |
| BatchDownload.RoundStartedConsistent | src/app/components/Case4/util.ts:214-263 | a round keeps the state consistent |
| BatchDownload.RoundFinishedConsistent | src/app/components/Case4/util.ts:266-291 | applying a round's results keeps the state consistent |
| BatchDownload.RetriedConsistent | src/app/components/Case4/util.ts:138-147 | `manualRetry` keeps the state consistent |
| BatchDownload.DownloadedConsistent | src/app/components/Case4/util.ts:51-136 | `download` keeps the state consistent |
| BatchDownload.AnsweredConsistent | src/app/components/Case4/util.ts:76-136 | the part of `download` after the probe keeps the state consistent |
| BatchDownload.BodyConsistent | src/app/components/Case4/util.ts:119-133 | appending the body chunks to the probe's chunk keeps the state consistent |
| BatchDownload.ChunksDownload.constructor | src/app/components/Case4/util.ts:33-49 | a new downloader is not terminated, holds the merged option, an empty list and nothing sent |
| BatchDownload.ChunksDownload.GetChunksParallel | src/app/components/Case4/util.ts:214-263 | the new state and the outcome are `RoundStarted` of the old state |
| BatchDownload.ChunksDownload.FinishRound | src/app/components/Case4/util.ts:264-292 | the new state and the outcome are `RoundFinished` of the old state and the results |
| BatchDownload.ChunksDownload.ResetRetries | src/app/components/Case4/util.ts:141-145 | the in-place loop leaves the list `ResetOverBudget` says |
| BatchDownload.ChunksDownload.ManualRetry | src/app/components/Case4/util.ts:138-147 | the new state and the outcome are `Retried` of the old state |
| BatchDownload.ChunksDownload.AbortAll | src/app/components/Case4/util.ts:152-154 | every chunk's controller joins the aborted set |
| BatchDownload.ChunksDownload.Terminate | src/app/components/Case4/util.ts:149-156 | the new state is `Stopped` of the old one |
| BatchDownload.ChunksDownload.Download | src/app/components/Case4/util.ts:51-136 | the new state and the outcome are `Downloaded` of the old state and the probe's answer |
| GridDiff.Read | src/app/components/Case5/model.ts:150 | spreading a row turns a hole into `undefined` and keeps every other value |
| GridDiff.IndexOfFirst | src/app/components/Case5/model.ts:44 | `indexOf` returns the first position holding an identical value, and -1 exactly when there is none |
| GridDiff.KeyColumn | src/app/components/Case5/model.ts:71-72 | `findIndex` of the key column is a position of the header or -1 |
| GridDiff.KeyStringShape | src/app/components/Case5/model.ts:47-94 | a dictionary key is side, kind and number, with the number at a position fixed by the kind |
| GridDiff.KeyStringInjective | src/app/components/Case5/model.ts:47-94 | different keys have different property names, so the dictionary keyed by `Key` is the object the source builds |
| GridDiff.MergeKeepsBoth | src/app/components/Case5/model.ts:25-28 | column keys and row keys never meet, so the merge keeps every entry of both parts |
| GridDiff.LastWriter | src/app/components/Case5/model.ts:53 | finds the last earlier position that wrote a given back mapping |
| GridDiff.TargetColStep | src/app/components/Case5/model.ts:43-54 | one pass of the first loop writes `append` or both mappings for its target column and nothing else |
| GridDiff.OriginColStep | src/app/components/Case5/model.ts:57-64 | one pass of the second loop writes `delete` for its origin column when the name is missing, and nothing else |
| GridDiff.TargetColsFoldDone | src/app/components/Case5/model.ts:43-54 | after the first loop, the target-column labels, the target-to-origin mappings and the back mappings are as the header names say |
| GridDiff.OriginColsFoldDone | src/app/components/Case5/model.ts:57-64 | after the second loop, the origin-column labels are as well, and the dictionary holds column keys only |
| GridDiff.ColDictMeetsSpec | src/app/components/Case5/model.ts:40-67 | the column dictionary marks exactly the target columns whose name no origin column has as `append`. It maps every other target column to the first origin column of its name, and maps that origin column back. It marks exactly the origin columns whose name no target column has as `delete`. Nothing else is in it |
| GridDiff.GetColDiffDict | src/app/components/Case5/model.ts:40-67 | the two loops build the dictionary `ColDict` describes |
| GridDiff.ColumnsByName | src/app/components/Case5/model.ts:40-67 | in terms of the header names: `delete` or `append` exactly when no column of the other header has the name; the mapping goes to the first column of that name; a back mapping points at a target column mapped to it |
| GridDiff.OriginRowStep | src/app/components/Case5/model.ts:76-87 | one pass of the origin loop writes `delete` or both mappings for its row and nothing else |
| GridDiff.TargetRowStep | src/app/components/Case5/model.ts:90-96 | one pass of the target loop writes `append` for its row when the key is missing, and nothing else |
| GridDiff.OriginRowEntry | src/app/components/Case5/model.ts:76-87 | the body of the origin loop keeps the loop's invariant for one more row |
| GridDiff.OriginRowEntries | src/app/components/Case5/model.ts:73-87 | after the origin loop, the origin rows are `delete` or mapped both ways as their keys say, and nothing else is in the dictionary |
| GridDiff.TargetRowEntries | src/app/components/Case5/model.ts:89-96 | after the target loop, the target rows whose key no origin row has are `append` as well |
| GridDiff.GetRowDiffDict | src/app/components/Case5/model.ts:69-99 | the row dictionary is what `RowDictSpec` describes, with row keys only |
| GridDiff.RowMatchAt | src/app/components/Case5/model.ts:78 | the match of an origin row is `indexOf` of its key in the target keys |
| GridDiff.IdsAreKeys | src/app/components/Case5/model.ts:75-78 | the key list holds the key cell of every row (`undefined` when the row is too short or the key column is absent), and `indexOf` compares those keys with `===` |
| GridDiff.OriginRowByKey | src/app/components/Case5/model.ts:76-82 | an origin row is `delete` exactly when no target row has an identical key |
| GridDiff.TargetRowByKey | src/app/components/Case5/model.ts:90-95 | a target row is `append` exactly when no origin row has an identical key |
| GridDiff.OriginMappingByKey | src/app/components/Case5/model.ts:84-86 | a kept origin row is mapped to the first target row with an identical key, and only to it |
| GridDiff.TargetMappingBack | src/app/components/Case5/model.ts:85-86 | a target row mapped back to an origin row is the one that origin row is mapped to |
| GridDiff.RowsByKey | src/app/components/Case5/model.ts:69-99 | the labels and mappings of rows in terms of their keys, in both directions: each origin row is mapped to the first target row with an identical key, each target row looked up against the first origin row with one |
| GridDiff.RowMappingsInverse | src/app/components/Case5/model.ts:84-86 | when the origin keys are unique, the two row mappings are inverse to each other |
| GridDiff.RepeatedTargetKeyThrows | src/app/components/Case5/model.ts:85-95 | a target row whose key repeats an earlier target row's key, where some origin row has that key, is neither appended nor mapped, so comparing its cells throws |
| GridDiff.GetMappingRow | src/app/components/Case5/model.ts:183-202 | throws the missing-mapping error exactly when there is no `row-mapping` entry; returns `compare[map[rowIdx]]` exactly when it names an existing row; otherwise throws row-not-found |
| GridDiff.GetMappingCell | src/app/components/Case5/model.ts:204-221 | throws the missing-mapping error exactly when there is no `col-mapping` entry; returns `row[map[colIdx]]` exactly when that cell is neither `null` nor `undefined`; otherwise throws cell-not-found |
| GridDiff.EmptyMappedCellThrows | src/app/components/Case5/model.ts:215-218 | a kept cell whose mapped cell is empty throws instead of being reported as `diff` |
| GridDiff.HeadView | src/app/components/Case5/model.ts:110-126 | the header row has one `head` cell per column, labelled `origin_delete`/`target_append` exactly when the column is marked, with the column name as value |
| GridDiff.KeptCellView | src/app/components/Case5/model.ts:150-175 | a cell of a marked column takes the column's mark. Any other cell is `unchanged` exactly when it is identical to its mapped cell, else `diff`. It throws exactly the lookup's error when the mapped cell is missing |
| GridDiff.KeptRowView | src/app/components/Case5/model.ts:149-177 | a kept row has one cell per cell of the source row, each labelled as above, or the error of the first cell whose lookup throws, exactly when one does |
| GridDiff.CreateViewData | src/app/components/Case5/model.ts:101-181 | the view has `1 + body.length` rows: the header row, then one row per body row, each with as many cells as that row and its values; a deleted or appended row labels every cell with the row's mark and keeps its value, and `row.map` keeps its holes. It throws exactly when a kept cell of a kept row finds no mapped cell, with the error of the first such cell |
| GridDiff.Truncated | src/app/components/Case5/model.ts:20-21 | only the first 100000 body rows are kept, unchanged, with the header |
| GridDiff.MergedSpec | src/app/components/Case5/model.ts:23-28 | the merged dictionary keeps the promises of both parts |
| GridDiff.Diff | src/app/components/Case5/model.ts:10-38 | both views are built, over the truncated sheets, from one dictionary that meets the column and row promises. `diff` succeeds exactly when every kept cell of both views finds its mapped cell, and then returns both views, with `1 + min(rows, 100000)` rows each. Otherwise it throws the origin view's first error, or the target view's when the origin view is whole |

## Left out

- Network I/O: `axios.post`, the `responseType`, the headers as sent. The result of a fetch is an input value (`ChunkRet`), and `getChunk` after the transport answers is `ParallelDownload.GetChunkResult`.
- `AbortController` signalling. Controllers are numbers, and aborting one adds it to a set. Nothing models an aborted fetch completing, or not completing, later.
- Stale completions: a completion from a chunk of an earlier, aborted transfer that arrives after a new `download` started. `OnCompletion` requires the chunk to be in flight while a transfer is open.
- The real asynchrony. The completions are a sequential series of calls. The probe of model.ts `download` is answered atomically, so no completion interleaves with its `await`. Likewise the batch `download`'s probe answer, and the batch round's `Promise.all` results, arrive as one call.
- The event emitter (eventemitter3) and listener dispatch. Emitted events are appended to a log.
- The percent fields and `firstChunkProgress` clamping (`toFixed`, float division). These are floating point; the events carry the counts only.
- `Blob`, `URL.createObjectURL` and the anchor click of `downloadBlobParts`. Only the name, type and parts handed over are recorded. The content-type default `text/plain` is kept.
- `TextDecoder` and `JSON.parse` in `checkChunkValid`. The check works on the decoded text. The message is always the parse-error one, since the inner throw is caught.
- `decodeURI` and the `content-disposition` filename regular expression. The file name arrives already extracted; only its default `未知名称` is modelled.
- JavaScript number precision. Sizes and counts are unbounded naturals, and `Number()` of a very long digit run is exact here. `NaN` from a zero chunk size is modelled only where it matters: the array length throws, or the length is 0.
- The `url` and `data` options are opaque to the logic. The probe's request records only whether it carries `data`.
- The `status` field of util.ts chunks. It stays `'not_start'` for ever and nothing reads it.
- util.ts `getChunk` and `checkChunkValid` (util.ts:170-212) duplicate those of model.ts. The batch model takes its round results as input and does not restate them.
- `readSheetContent` (exceljs parsing), `Date.now` timings and `console.log` in `Diff.diff`. The sheets are inputs. Cell values are an abstract type with `===`: objects compare by identity, so an object never equals one from the other sheet.
- GridDiff.GetRowDiffDict: assumes dense sheet bodies. `getSheetValues().slice(2)` (model.ts:240) keeps a blank sheet row as a hole, and `[...body]` turns that hole into `undefined`. Reading its key cell at model.ts:78 or model.ts:92 then throws a `TypeError`. A body here is a sequence of rows, so this case and that error are not modelled.
- GridDiff.Diff: its success condition holds only for sheets without a blank body row. With one, the source rejects with the `TypeError` above before it builds any view.
- GridDiff.CreateViewData: reports the exception of the first failing cell, as the source throws it. The origin view's error stops `Diff` before the target view is built.
- The React components, routing and build configuration: they hold no download or diff logic.
- ParallelDownload.ChunksDownload.OnCompletion: does not model a completion for a chunk that is not in flight while a transfer is open. That state is unreachable without stale completions.
- BatchDownload.ChunksDownload.constructor: assumes the `super()` call that util.ts:33-49 omits. The class extends `EventEmitter` (util.ts:25), so as written `this.option = …` throws a `ReferenceError` before any field is set, and the TypeScript compiler rejects the constructor. The model constructs the object the constructor evidently means to build.
- BatchDownload.ChunksDownload.Download: like the source, has no guard against a second call while rounds run. The interleaving of two calls is not modelled.

## Findings

| source | as written | input that shows it | evidently intended | confidence | as-written member | corrected member |
|---|---|---|---|---|---|---|
| src/app/components/Case4/util.ts:121-122 | chunk k ≥ 1 requests `k*cs` to `(k+1)*cs`, while chunk k-1 already ends at byte `k*cs`; `Range` ends are inclusive, so every boundary byte is fetched twice and appears twice in the delivered file | chunk size 1 KiB, file of 2049 bytes: ranges `0-1024`, `1024-2048`, `2048-2049`; bytes 1024 and 2048 are each delivered twice | chunk k starts one byte after chunk k-1 ends and the last range stops at the file's last byte | not executed; high | BatchDownload.BatchPlanRepeatsBoundaryByte | ParallelDownload.FixedPlanExact, ParallelDownload.FixedPlanCovers |
| src/app/components/Case4/util.ts:226, 278-283 | a round selects the first `maxParallel` chunks without data, even those past their retry budget; another round runs while some chunk without data is within budget. So a chunk that keeps failing can occupy the whole pool, and the rounds repeat for ever | retry budget 0, pool of 1, a 2049-byte file in 1 KiB chunks whose chunk 1 is always rejected: after the first round chunk 1 is past its budget while chunk 2, within budget, keeps the loop going; every later round asks for chunk 1 again and chunk 2 is never requested | a round asks only for chunks without data that are within their budget, so every round spends an attempt and the rounds end | not executed; medium | BatchDownload.RoundsCanStarve | BatchDownload.BudgetedSelection, BatchDownload.BudgetedRoundsTerminate |
| src/app/components/Case4/model.ts:139-143 | the plan covers positions 0 to `total`, one more than the file has; when `total` is one more than a multiple of the chunk size, the last range starts at `total`. Section 14.1.2 of RFC 9110 makes a range whose first position is at or past the length unsatisfiable, so a server may answer 416; the chunk then fails on every attempt and the download ends with `download-fail` | chunk size 1 KiB, file of 2049 bytes: ranges `0-1024`, `1025-2048`, `2049-2049`; the file's last byte is 2048 | the last range stops at byte `total - 1`, and no range starts past it | not executed; medium | ParallelDownload.PlanOverrunsFile | ParallelDownload.FixedPlanExact, ParallelDownload.FixedPlanCovers |

Both downloader classes keep the code as written, since they model the source. `BatchDownload.BudgetedSelection` is the corrected selection, and `BatchDownload.BudgetedRoundsTerminate` proves that its rounds end. `ParallelDownload.FixedBodyChunks` is the corrected plan: the current downloader's ranges without the position past the file. `FixedPlanExact` and `FixedPlanCovers` prove that it asks for each byte of the file exactly once.
