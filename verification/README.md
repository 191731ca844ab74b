# Verified model of the serving engine and its kernels

This project models the logic of a small GPU inference server in Dafny and proves what it is
meant to guarantee. It has two halves.

**The serving control plane.** A paged K/V allocator hands blocks to requests; a scheduler admits
requests, reserves blocks, and plans batches of decode turns and bounded prefill chunks; an
executor writes and reads K/V rows through block tables; an asynchronous engine ties them
together, while clients submit and cancel at any await.

- `Basics`, `PagedKV`, `PagedStorage`, `GraphBuckets`, `Scheduler`, `Executor` and `Engine` state the
  behaviour as functions on values. `Engine` cuts `step` at its awaits into atomic phases (begin,
  decode call, decode commit, prefill call, prefill commit, cleanup). A run is any sequence of
  submits, cancels, phases, executor failures and clock readings.
- `Allocator`, `BatchScheduler`, `PagedExecutor` and `ServingEngine` hold the classes that do the same
  in place, with the source's fields and loops. Every method is proved to take the state it finds
  to exactly the state the function gives; the engine's methods also keep the engine invariant.
- `SchedulerInvariant`, `PlanInvariant` and `EngineInvariant` hold what every action keeps.
  `Refinement*` and `ContinuousBatching` prove the main theorem: in every run a finished request
  generated exactly what it would have generated alone. `InterleavingSafety`, `EventProtocol`,
  `FinishReasons`, `Deadlines`, `PrefillCaches`, `Drain`, `Feeding` and `Fairness` hold the other
  whole-run theorems; `Endings` and `Evolution` say what single actions may do to requests.
  `Admission` says exactly when a submit is admitted, `PlanTerms` what a step plans, and `Calls` what the
  other calls accept and change, all in terms of requests, queues, blocks and the configured limits.

A K/V cell holds one unknown value that depends on the token, its position and the rows before it;
logits depend on the last token and the rows read through the block table; a sample depends on the
request's parameters, the logits, the history and how often the request has sampled. All four are
arbitrary functions (`Executor.Model`).

**The kernels.** Over exact reals the fast forms equal their one-line specifications for all shapes:
online softmax and split-KV attention with a log-sum-exp merge (`Softmax`, `SplitAttention`,
`SplitKernels`, `FlashAttention`), the page gather (`PagedGather`), the grouped GEMM swizzle
(`Swizzle`, `Gemm`), Split-K and warp reductions (`SplitK`, `WarpGemv`), INT4 weights (`Int4`), and
tile-local top-k (`TopK`). The one-line specifications are the plain sums of `Reference`, which no kernel
uses. `BusyTime` and `Frontier` hold the two analysis algorithms. Sums are in
`Sums`, bit masks in `Bits`. Softmax knows `exp` and `log` by their laws only; `Num` adds minus
infinity and a value for everything undefined, so that `-inf - -inf` is a result that the theorems
rule out, or show where it does occur.

## What turned out different from what the source says

- The executor's `release` is documented to drop temporary state after any terminal event
  (serving/qwen_executor.py:138-140). Two things leave a finished request with a prefill cache that
  nothing ever drops, and `PrefillCaches.FinishedCaches` proves, over every run, that there is no third:
  - A deadline that passes between the expiry in `step` and the one inside `plan`, while the request
    has a cache from an earlier chunk: `_finish_event`, and with it `release`, is never called for it.
    This needs no other task to run in between.
  - A prefill call that reaches a chunk of a request that ended after the plan (cancelled, say) stores
    a cache for it, whether the call returns or raises. This needs an await during which a cancel can
    run. `QwenPagedExecutor` has none inside its calls, so with it alone and an uncontended lock the
    window stays closed; an executor that suspends opens it.

  `MissedDeadline` holds one concrete run for each.
- `plan` expires requests once more after `step` did. Those requests get no terminal event and no
  metric. A request ends in silence if and only if it falls due between the two readings of the clock
  in one step: `EventProtocol.BeginSilences` for one step, `EventProtocol.StepSilences` for every action,
  `EventProtocol.SilencedWhen` and the conservation law `EventProtocol.EventsAndConservation` for every run.
- The attention kernel and its reference differ exactly on query rows below the query length that have
  no key. With keys that are all masked, the kernel evaluates `-inf - -inf` and its log-sum-exp is
  undefined where the reference has `-inf`; with no keys at all, both have `-inf` but the kernel's output is
  0 / 0 where the reference has an empty sum. `FlashAttention.AttentionForward` states the condition row
  by row. The split-KV merge is a number exactly when there is at least one position:
  `SplitAttention.MergeIsAttention`.
- For a linear weight with `K == 0` the prefill GEMM divides by zero where the plain form returns:
  `Gemm.PrefillGemm`.

## Model

| member | source | states |
|---|---|---|
| PagedKV.LowestAreLowest | serving/paged_kv.py:64 | Reservations hand out the lowest free block numbers first, in increasing order. |
| PagedKV.CreateKeeps | serving/paged_kv.py:48-52 | Creating a request keeps free and owned blocks a partition of all blocks. |
| PagedKV.AppendKeeps | serving/paged_kv.py:54-69 | Reserving keeps the partition, whether it succeeds, fails or is refused; every request holds exactly the blocks its length needs. |
| PagedKV.AppendOutcome | serving/paged_kv.py:54-69 | A reservation that fits returns the slots of exactly the new positions, extends the request's blocks and touches no other request. |
| PagedKV.ReleaseKeeps | serving/paged_kv.py:71-76 | Releasing gives all blocks of the request back and keeps the partition. |
| PagedKV.MetadataRows | serving/paged_kv.py:78-101 | Each table row is the request's blocks and then -1; each length is the request's length. |
| PagedStorage.SlotsDistinct | serving/paged_kv.py:66-67 | Two positions, of one request or of two, never share a physical slot. |
| PagedStorage.AppendFits | serving/paged_kv.py:58-63 | A reservation runs out of memory if and only if all requests together would need more blocks than exist. |
| Calls.AppendWhen | serving/paged_kv.py:54-69 | A reservation returns if and only if its count is not negative, the request exists, and the least blocks of all requests then fit in the pool; each refusal has its error and changes nothing. |
| Calls.MetadataWhen | serving/paged_kv.py:78-92 | Metadata is refused exactly for an unknown request, or a width that is negative, below a row or beyond the pool; the rows have the asked width, or that of the longest one. |
| Calls.WriteWhen | serving/paged_kv.py:103-113 | A write returns if and only if the request exists, there is one row per position and all positions are reserved; each refusal has its error. |
| PagedStorage.StepRefines | serving/paged_kv.py:48-113 | Each allocator call does to the pages what the block-free specification does to one private sequence per request. |
| PagedStorage.PagedStorageIsPrivate | serving/paged_kv.py:48-113 | In every interleaving of create, append, write and release, a live request reads back the last value it wrote at each position and no other request's writes. |
| Bits.MaskIsOffset | serving/paged_kv.py:67 | Masking a position with `block_size - 1` is its offset in the block. |
| Bits.PowerOfTwoTest | serving/paged_kv.py:38-39 | The constructor's bit test accepts exactly the powers of two. |
| Allocator.PagedKVAllocator.Make | serving/paged_kv.py:33-46 | An allocator is made if and only if both sizes are positive and blocks are a power of two; it has every block free and no request. |
| Allocator.PagedKVAllocator.Create | serving/paged_kv.py:48-52 | In place: the new state and the error are those of the specification. |
| Allocator.PagedKVAllocator.PopBlocks | serving/paged_kv.py:64 | Popping the heap in a loop takes the lowest free blocks and nothing else. |
| Allocator.PagedKVAllocator.SlotsOf | serving/paged_kv.py:65-67 | The slot loop with masked offsets yields the slots of consecutive positions. |
| Allocator.PagedKVAllocator.AppendSlots | serving/paged_kv.py:54-69 | In place: all three refusals leave the allocator unchanged, and success is the specified growth. |
| Allocator.PagedKVAllocator.Release | serving/paged_kv.py:71-76 | In place: the pushed blocks and the removed entry are those of the specification. |
| Allocator.PagedKVAllocator.GetMetadata | serving/paged_kv.py:78-101 | The loops build the specified tables and lengths, with the width checks. |
| Allocator.PagedKVAllocator.Write | serving/paged_kv.py:103-113 | In place: rows are written position by position and a bad position stops the writing there. |
| Allocator.PagedKVAllocator.BlocksForTokens | serving/paged_kv.py:123-125 | The least number of blocks that hold the tokens. |
| GraphBuckets.SelectIsSmallestCover | serving/graph_buckets.py:19-23 | A bucket pair is selected if and only if both sizes have a cover, and it is the smallest cover in both. |
| BatchScheduler.ContinuousBatchScheduler.AdmittedBlocks | serving/scheduler.py:166-167 | The loop computes the sum of all reservations. |
| BatchScheduler.ContinuousBatchScheduler.Submit | serving/scheduler.py:74-84 | In place: validation, admission or rejection leave exactly the specified dicts, queue, reservation and allocation. |
| BatchScheduler.ContinuousBatchScheduler.Cancel | serving/scheduler.py:86-89 | In place: only a live request is cancelled, and it gives everything back. |
| BatchScheduler.ContinuousBatchScheduler.Cleanup | serving/scheduler.py:169-171 | In place: work in flight, reservation, both queue entries and blocks are gone. |
| BatchScheduler.ContinuousBatchScheduler.Expire | serving/scheduler.py:159-164 | The sweep retires exactly the due requests, in insertion order. |
| BatchScheduler.ContinuousBatchScheduler.PlanDecode | serving/scheduler.py:96-105 | The decode loop leaves the specified queue, slots and work, also when a turn raises. |
| BatchScheduler.ContinuousBatchScheduler.PlanPrefill | serving/scheduler.py:106-121 | The prefill loop with its shrinking budget, skips and break leaves the specified state and work. |
| BatchScheduler.ContinuousBatchScheduler.Plan | serving/scheduler.py:91-125 | In place: refusal with work in flight, silent expiry, stable sorts, both loops and the bucket choice. |
| BatchScheduler.ContinuousBatchScheduler.CompletePrefill | serving/scheduler.py:127-136 | In place: the cursor moves, and the last chunk moves the request to the decode queue. |
| BatchScheduler.ContinuousBatchScheduler.CompletePrefillSample | serving/scheduler.py:138-145 | In place: the first token is appended, and a stop or the limit finishes the request. |
| BatchScheduler.ContinuousBatchScheduler.CompleteDecode | serving/scheduler.py:147-153 | In place: one token is appended to a request whose decode is in flight. |
| BatchScheduler.ContinuousBatchScheduler.Fail | serving/scheduler.py:155-157 | In place: the request fails and gives everything back; there is no guard for finished requests. |
| SchedulerInvariant.SubmitKeeps | serving/scheduler.py:74-84 | Submitting keeps the scheduler invariant; reservations never exceed the pool. |
| Admission.AdmittedWhen | serving/scheduler.py:74-84 | A submit is admitted if and only if it is well formed and the least blocks that hold its prompt plus limit, added to those of all live requests, are no more than the pool has; which error each refusal raises, and what an admitted or rejected request leaves, are exact. |
| Calls.CancelWhen | serving/scheduler.py:86-89 | A cancel returns true exactly for the requests that wait in a queue; they lose queue place, reservation, work in flight and blocks, and nothing else changes. |
| Calls.FailWhen | serving/scheduler.py:155-157 | A failure does the same to any known request, also one that had ended. |
| Calls.PlanWhen | serving/scheduler.py:91-92 | A plan is refused exactly while work is in flight, and then changes nothing. |
| Calls.CompletePrefillWhen | serving/scheduler.py:127-136 | A prefill completion is accepted if and only if exactly that chunk is in flight: cursor and state are never the reason of a refusal. |
| Calls.CompleteSampleWhen | serving/scheduler.py:138-145 | A first token is accepted if and only if the pages hold exactly the prompt, nothing was sampled and nothing is in flight. |
| Calls.CompleteDecodeWhen | serving/scheduler.py:147-153 | A decode completion is accepted if and only if a decode of that request is in flight; the request ends when the sample was a stop or its limit is reached exactly. |
| SchedulerInvariant.TerminateKeeps | serving/scheduler.py:155-171 | Ending a request keeps the invariant: exactly live requests own blocks, reservations and queue entries. |
| SchedulerInvariant.ExpireKeeps | serving/scheduler.py:159-164 | Expiry keeps the invariant. |
| SchedulerInvariant.HeldBelowReserved | serving/scheduler.py:78-84 | A live request never holds more blocks than it reserved. |
| SchedulerInvariant.AdmissionIsSufficient | serving/scheduler.py:78-84 | Whatever the others hold, an admitted request can always grow to prompt plus max_new_tokens: no reservation from a plan runs out of blocks. |
| SchedulerInvariant.IssueKeeps | serving/scheduler.py:97-121 | Handing work to one request keeps the invariant: stored length is the cursor or the tokens but the last, plus the work in flight. |
| SchedulerInvariant.CompletePrefillKeeps | serving/scheduler.py:127-136 | Completing a chunk keeps the invariant. |
| SchedulerInvariant.CommitKeeps | serving/scheduler.py:138-153 | Committing a sampled token keeps the invariant, also when it is the last one. |
| PlanInvariant.PlanDecodeIssues | serving/scheduler.py:97-105 | Each decode turn feeds the last sampled token at the next position with its own slot, and rotates the queue. |
| PlanInvariant.PlanPrefillIssues | serving/scheduler.py:109-121 | Each prefill item is the next prompt chunk with its slots, exactly as long as the prompt, chunk limit and remaining budget allow; turns stop early only when the budget is used up; the rotation survives the break. |
| Scheduler.MaxLengthAttained | serving/scheduler.py:122-124 | The sequence length a bucket is selected for is the length of one of the plan's decode items. |
| PlanInvariant.PlanNeverRaises | serving/scheduler.py:91-125 | With nothing in flight a plan never raises, serves each request once, keeps batch, chunk and budget bounds, leaves out no decode, chunk or prompt token that those bounds allow, and covers its decodes with the chosen bucket. |
| PlanTerms.HighestFirst | serving/scheduler.py:94-121 | Who gets a decode turn comes after every decoding request with a higher priority, all of which get one too; likewise for prefill chunks. |
| PlanTerms.TakesAll | serving/scheduler.py:96-121 | A plan holds as many decodes, chunks and prompt tokens as batch size, chunk sizes and token budget allow, and each chunk is as long as they allow. |
| PlanTerms.SmallestBucket | serving/scheduler.py:122-125 | The plan's graph bucket is the smallest for its own decode count and longest sequence, and there is none exactly if one of them has no cover. |
| PlanTerms.TableWidthIs | serving/engine.py:82-89 | Every emitted table row is as wide as the least blocks of the sequence bucket, cut at the pool's size, or of the longest sequence without a bucket. |
| Executor.ReadThrough | serving/qwen_executor.py:15-29 | Reading through a block table returns one cell per logical position, in order. |
| PagedExecutor.QwenPagedExecutor.Release | serving/qwen_executor.py:138-140 | In place: the request's prefill cache is dropped and no other. |
| PagedExecutor.QwenPagedExecutor.ReadPages | serving/qwen_executor.py:15-29 | The loop over the pages yields the logical sequence. |
| PagedExecutor.QwenPagedExecutor.ScatterPrefill | serving/qwen_executor.py:142-149 | Row `start + i` of the cache goes to slot `i`, and nothing else is written. |
| PagedExecutor.QwenPagedExecutor.Prefill | serving/qwen_executor.py:110-125 | In place: pages, caches and logits of a prefill call, up to the item that raises. |
| PagedExecutor.QwenPagedExecutor.CheckLengths | serving/qwen_executor.py:131-134 | Caches are dropped row by row until the first wrong or missing length; without host lengths all are dropped and nothing is checked. |
| Calls.DropsUntil | serving/qwen_executor.py:131-134 | A decode call drops the caches of its rows up to and including the first without a fitting host length, raises there, and keeps all others. |
| Calls.DropsAll | serving/qwen_executor.py:131-134 | Without host lengths it drops the caches of all its rows. |
| Calls.SlotsUntil | serving/qwen_executor.py:159-160 | The first row whose slot is not the one of its position in the request's blocks decides the error. |
| Calls.FaultLeaves | serving/qwen_executor.py:110-149 | A call that raises leaves any values it likes in the slots of its work and all other cells as they were. |
| PagedExecutor.QwenPagedExecutor.ValidateSlots | serving/qwen_executor.py:159-160 | The first row with an unknown request or a wrong slot decides the error. |
| PagedExecutor.QwenPagedExecutor.StoreRows | serving/qwen_executor.py:185-188 | Every new row is stored in its slot before any row attends. |
| PagedExecutor.QwenPagedExecutor.Attend | serving/qwen_executor.py:127-136 | Each row attends over its own positions after all rows are stored; the last row of an id wins. |
| PagedExecutor.QwenPagedExecutor.Decode | serving/qwen_executor.py:127-136 | In place: pages, caches and logits of a decode call, with all its checks in order. |
| PagedExecutor.QwenPagedExecutor.ValidatedInPages | serving/qwen_executor.py:274-281 | Slots that pass validation lie inside the pages. |
| ServingEngine.ServingEngine.Submit | serving/engine.py:47-56 | In place: scheduler, event queue, sampler and counters after a submit; the engine invariant holds again. |
| ServingEngine.ServingEngine.Cancel | serving/engine.py:58-63 | In place: a cancel that changes something counts and sends the terminal event; the engine invariant holds again. |
| ServingEngine.ServingEngine.BeginStep | serving/engine.py:70-89 | In place: expiry with events, the plan, and the metadata with the bucket's table width. |
| ServingEngine.ServingEngine.ExecuteDecode | serving/engine.py:90 | In place: the decode call, returning or raising; the engine invariant holds again. |
| ServingEngine.ServingEngine.CommitDecodes | serving/engine.py:91-97 | In place: the commit loop, stopped by the first request that is gone or lacks logits. |
| ServingEngine.ServingEngine.ExecutePrefill | serving/engine.py:99 | In place: the prefill call, returning or raising; the engine invariant holds again. |
| ServingEngine.ServingEngine.CommitPrefills | serving/engine.py:100-108 | In place: the commit loop; the last chunk of a prompt also commits the first token. |
| ServingEngine.ServingEngine.FailStep | serving/engine.py:109-116 | In place: every unfinished request of the plan fails, with counter and event. |
| ServingEngine.ServingEngine.RecordToken | serving/engine.py:118-131 | In place: one token event and, for a finished request, the terminal event with its reason. |
| ServingEngine.ServingEngine.FinishEvent | serving/engine.py:133-139 | In place: the executor's cache is released and the terminal event queued. |
| EngineInvariant.MetadataAccepted | serving/engine.py:82-89 | The table width derived from the graph bucket is always accepted, and the tables and lengths describe the planned requests. |
| EngineInvariant.StepKeeps | serving/engine.py:47-116 | Every action in every phase keeps the engine invariant: only the current plan is in flight, and its slots belong to its own requests or to nobody. |
| Alone.ContextTake | serving/qwen_executor.py:110-125 | The K/V rows of a prefix are the first rows of the whole: chunked prefill builds what one pass builds. |
| RefinementExec.BatchReadsEitherWay | serving/qwen_executor.py:185-211 | The rows a batch stores are the same whether each reads the pages before the batch or after all of it was stored. |
| RefinementExec.RowDone | serving/qwen_executor.py:127-136 | A decode row reads through the pages exactly the rows a model without pages would hold, and gives its logits. |
| RefinementExec.DecodeExecMeaning | serving/qwen_executor.py:127-136 | A decode call, succeeding or failing, leaves every request's committed positions with their true rows. |
| RefinementPrefill.PrefillExecMeaning | serving/qwen_executor.py:110-149 | So does a prefill call, and finished chunks hold the rows of their tokens. |
| RefinementCommit.DecodeCommitMeaning | serving/engine.py:91-97 | Committed tokens continue what the request would have generated alone. |
| RefinementCommit.PrefillCommitMeaning | serving/engine.py:100-108 | So does the first token after the last chunk. |
| ContinuousBatching.FinishedAsAlone | serving/engine.py:70-116 | Continuous batching refines sequential generation: in every run a finished request generated exactly what it would have generated alone, any other admitted request a prefix of it. |
| FinishReasons.StopOrLength | serving/engine.py:118-131 | In every run the stream of a finished request is its tokens and then 'stop' if the sample that gave the last one, taken on the sequential generation of its prompt, was a stop, and 'length' otherwise. |
| InterleavingSafety.NothingLeftBehind | serving/engine.py:70-116 | In every run the engine loop never crashes, nothing is in flight between steps, and finished requests hold no block, reservation or queue entry. |
| InterleavingSafety.DecodeSparesOthers | serving/qwen_executor.py:185-188 | A decode call never writes a block of a live request outside its batch, also for members cancelled meanwhile and when it raises. |
| InterleavingSafety.PrefillSparesOthers | serving/qwen_executor.py:142-149 | Nor does a prefill call, which writes without checking its slots. |
| InterleavingSafety.DecodeCallSucceeds | serving/qwen_executor.py:127-160 | Without a fault of its own a decode call succeeds if and only if every request of the batch is still there: all emitted slots and lengths pass their checks. |
| InterleavingSafety.BeginNeverFails | serving/engine.py:70-89 | Beginning a step never fails, and it finds no work if and only if no request is live. |
| PrefillCaches.CallCaches | serving/qwen_executor.py:110-125 | A prefill call returns if and only if no forward pass raises and every chunk starts where its cache ends; either way it leaves a cache for exactly the items it went through. |
| PrefillCaches.PrefillCallSucceeds | serving/qwen_executor.py:110-125 | Without a fault of its own a prefill call returns if and only if no listed request is gone that had an earlier chunk. |
| PrefillCaches.CancelledPrefillCached | serving/qwen_executor.py:110-140 | A planned request that ended before its prefill call has a cache again if and only if the call reaches its chunk, returning or raising. |
| PrefillCaches.StepLeaves | serving/engine.py:70-138 | For every action, the finished requests with a prefill cache afterwards are those before and those newly left: missed by a beginning step, or gone before a prefill call that reaches them. Nothing removes one. |
| PrefillCaches.FinishedCaches | serving/engine.py:70-138 | In every run a finished request has a prefill cache if and only if one of those two events happened to it. |
| MissedDeadline.DeadlineBetweenExpiries | serving/engine.py:70-76 | A run of five actions after which a request has timed out, its client heard nothing, and its prefill cache is still there. |
| MissedDeadline.CancelBeforePrefill | serving/engine.py:58-63 | A run of four actions after which a cancelled request has a prefill cache. |
| Endings.ExpireExact | serving/scheduler.py:159-164 | An expiry times out exactly the due requests and returns exactly their ids. |
| Endings.ExpireInOrder | serving/scheduler.py:159-164 | Requests expire in the order of their submission. |
| Endings.StepKeepsTerms | serving/scheduler.py:74-84 | No action changes prompt, limit, sampling parameters, priority, timeout or submission time of a request. |
| Deadlines.TimesOutWhen | serving/scheduler.py:159-164 | Over every run, a request that is live when a step begins times out in it if and only if its timeout has passed since its submission at one of the two clock readings; its client hears of it if and only if it had at the first. |
| Endings.BeginFor | serving/engine.py:70-75 | What beginning a step does to each request, its stream and its cache: due at the first expiry, it times out and is told and released; due only at the second, it times out and nothing else happens. |
| Endings.StepSettles | serving/engine.py:58-138 | Under every other action whoever ends loses its prefill cache and does not time out, and whoever had ended keeps request, stream and cache. |
| Endings.CleanupAnyOrder | serving/engine.py:109-114 | The cleanup of a failed step has the same result whatever the order in which it takes the ids of the plan, and however often one occurs. |
| EventProtocol.BeginSilences | serving/scheduler.py:91-93 | A live request times out without a terminal event if and only if it is not due at the expiry of `step` and is due at that of `plan`. |
| EventProtocol.StepSilences | serving/engine.py:70-138 | For every action, the requests that ended without a terminal event are those before and those that a beginning step missed. |
| EventProtocol.SilencedWhen | serving/scheduler.py:91-93 | A run silences a request if and only if one of its steps begins with the request's deadline between its two expiries. |
| EventProtocol.OneClockReading | serving/scheduler.py:93 | No request is silenced in a run whose `plan` never reads a later time than its `step`. |
| EventProtocol.EventsAndConservation | serving/engine.py:47-139 | In every run each stream is the generated tokens and then at most one fitting terminal event; the requests without theirs are exactly those a step missed; and submitted equals completed, cancelled, timed out, failed, active and missed. |
| EventProtocol.TerminalIsFinal | serving/scheduler.py:32-34 | Terminal states are absorbing in every run: the request and its stream never change again. |
| EventProtocol.ColumnsAddUp | serving/metrics.py:18-19 | Every request counts in exactly one column. |
| Evolution.StepEvolves | serving/engine.py:58-116 | One relation bounds what any action other than a submit or a begin may do to requests, queues and stored lengths. |
| Drain.EngineDrains | serving/engine.py:65-68 | Completed steps never exceed the prompt tokens and token limits submitted; after that many, every request is terminal, whatever the executor does. |
| Drain.StepsEnd | serving/engine.py:70-116 | A step that began ends after a bounded number of its own phases, and submits or cancels do not set it back. |
| Feeding.FedInOrder | serving/scheduler.py:97-121 | Over every run the work of a request feeds positions 0, 1, 2, ... once each with prompt then generated tokens, and each item starts where the last ended. |
| Fairness.SortIsStable | serving/scheduler.py:94-95 | The queues are sorted by priority, with the same members, and requests that need not swap keep their order. |
| Fairness.BeginTurns | serving/scheduler.py:94-121 | Who waits earlier and has no lower priority gets its turn earlier, and stays ahead of who gets none either; who had a turn waits behind all who had none or had theirs before. |
| Fairness.RoundRobin | serving/scheduler.py:94-121 | Between two consecutive turns of a request, every request with the same priority that waits in the same queue throughout gets a turn, for prefill and for decode. |
| PagedGather.MaterializeAt | serving/qwen_executor.py:26-29 | The flattened blocks hold position `t` at row `t % block` of the `t / block`-th block of the table. |
| PagedGather.Materialize | serving/qwen_executor.py:15-29 | It returns if and only if the length is positive and the table covers it with real blocks. |
| PagedGather.RepeatInterleaveAt | serving/qwen_executor.py:214-216 | Query head `h` gets KV head `h // groups`. |
| PagedGather.AllocatorTablesOk | serving/paged_kv.py:94-96 | A reader below the length of an allocator-made table meets no -1 entry and finds the slot handed out for the position. |
| PagedGather.Gather | serving/paged_gather.py:9-28 | The fused gather equals materializing and repeating the heads, with zero rows beyond the length, for every layout, head ratio and tile. |
| PagedGather.GatherPagedGqa | serving/paged_gather.py:31-57 | The call returns if and only if lengths, layer, block size and both workspaces fit, with one or two heads per KV head; then row `t` of head `h` of entry `b` is the row that the block table gives for `t` and KV head `h // groups`, or zero beyond the length, and otherwise nothing is written. |
| Softmax.MaxNumIsMax | serving/paged_attention.py:32 | The maximum of masked scores is attained and bounds them all. |
| SplitAttention.ActiveMax | serving/paged_attention.py:32-35 | No active split subtracts minus infinity. |
| SplitAttention.PartialIsShare | serving/paged_attention.py:28-42 | A split stores attention over its own keys and the logarithm of its share of the weights; an inactive split stores zero and minus infinity. |
| SplitAttention.MergeIsAttention | serving/paged_attention.py:45-54 | The merge equals softmax attention over exactly the first positions, for every length, tile, split count and merge width; it is a number if and only if there is a position. |
| SplitKernels.AttentionIs | serving/paged_attention.py:11-54 | Softmax attention written out over the rows: the sum of `exp(scale * (q . k_t)) * v_t` over the sum of `exp(scale * (q . k_t))`. |
| SplitKernels.Workspace.MergeProgram | learning/10_cuda_decode/split_kv.py:35-42 | One head's merge, from whatever splits stored, writes its output row and no other. |
| SplitKernels.SplitKvAttention | learning/10_cuda_decode/split_kv.py:12-78 | Each query head attends over exactly the valid prefix of its KV head, whatever unused capacity and workspaces hold; the result is written out over the query, key and value rows. |
| SplitKernels.PagedAttention | serving/paged_attention.py:11-101 | Each program attends over the materialized sequence of its batch entry and head, written out over the rows found through the block table: paged and contiguous forms agree with the same one-shot formula. |
| FlashAttention.ReferenceIsAttention | learning/07_flash_attention/attention.py:76-94 | The materialized masked softmax of a valid row is attention over its allowed keys, a prefix, and its log-sum-exp is the logarithm of their weights. |
| FlashAttention.TileStep | learning/07_flash_attention/attention.py:40-67 | One tile keeps maximum, sum and accumulator describing exactly the keys seen; the maximum is a number from the first tile on. |
| FlashAttention.AttendRow | learning/07_flash_attention/attention.py:34-73 | The online loop ends with the reference output and log-sum-exp, causal or not, for every tile size; a valid row without keys ends with an undefined output, and an undefined log-sum-exp unless there is no tile. |
| FlashAttention.AttendPlane | learning/07_flash_attention/attention.py:18-73 | The programs of one batch entry and head write the rows of their own plane and no others. |
| FlashAttention.PlaneOfHead | learning/07_flash_attention/attention.py:19-22 | The plane of a batch entry and head holds that query head, key head and value head with the entry's own query and key length. |
| FlashAttention.AttentionForward | learning/07_flash_attention/attention.py:97-130 | The call raises exactly for tensors that do not fit together or have no columns; otherwise row `i` of every head `h` of every entry `b` and its log-sum-exp are the plain weighted sums over exactly the keys of that head that the entry's lengths and the causal mask allow, zero and minus infinity beyond the query length, and undefined exactly for a row below it without a key. |
| Swizzle.TileThenProgram | learning/06_gemm/gemm.py:20-29 | Every program owns a tile of the grid and no two programs share one, also in the smaller last group. |
| Swizzle.ProgramThenTile | learning/06_gemm/gemm.py:20-29 | Every tile has its program in the launch grid: with the above, a bijection with this inverse. |
| Swizzle.Walk | learning/06_gemm/gemm.py:23-29 | The grid is walked group by group of tile rows, columns from left to right, and each next program of a column takes the next tile row, after the last the first. |
| Swizzle.RotateUnrotate | learning/06_gemm/gemm.py:28 | Taking the unreduced program id modulo the group's rows is a rotation that can be undone. |
| Gemm.Accumulate | learning/06_gemm/gemm.py:40-47 | The masked K tiles of a cell add up to the full dot product. |
| Gemm.WrittenOnce | learning/06_gemm/gemm.py:50-52 | Every cell of C is written by exactly one program. |
| Gemm.Launch | learning/06_gemm/gemm.py:9-52 | The programs of a launch, in any order, leave the matrix product, as a plain sum, in C, for all sizes, tiles and groups and for rows cut for a bucket. |
| Gemm.BucketM | learning/06_gemm/qwen_prefill_gemm.py:54-59 | The smallest bucket that covers the rows; an error if and only if there are more than 4096. |
| Gemm.PrefillGemm | learning/06_gemm/qwen_prefill_gemm.py:22-92 | Masked bucketed products are the plain sums for plain and linear weights; the call raises exactly above 4096 rows or for a linear weight with `K == 0`. |
| SplitK.WindowIsTile | learning/08_decode/decode_gemv.py:36-42 | The split ranges are the tiles of one cut of 0..K-1, also when trailing splits are empty. |
| SplitK.Gemv | learning/08_decode/decode_gemv.py:15-28 | The output-parallel kernel computes every column's dot product. |
| SplitK.SplitKGemv | learning/08_decode/decode_gemv.py:31-57 | Split-K partial sums add up to the same dot product for every number of splits. |
| SplitK.DecodeGemv | learning/08_decode/decode_gemv.py:60-83 | Exactly the split counts 1, 2, 4 and 8 are accepted, and all give the product, as a plain sum. |
| WarpGemv.WarpSum | learning/10_cuda_decode/warp_gemv.cu:9-12 | After the five shuffle steps lane 0 holds the sum of all 32 lanes. |
| Sums.LanesAddUp | learning/10_cuda_decode/warp_gemv.cu:24-41 | Lane-strided partial sums together count every column once. |
| WarpGemv.TermIsReference | learning/10_cuda_decode/activation_int8.py:63-64 | Scaling the activation by the inverse channel scale equals using the dequantized weight. |
| WarpGemv.RowDot | learning/10_cuda_decode/warp_gemv.cu:23-43 | A warp computes its row's product with the dequantized weight. |
| WarpGemv.Projection | learning/10_cuda_decode/warp_gemv.cu:14-54 | Every output row is stored exactly once, for any grid size: the product of its weight row, or SwiGLU of the product of row `r` as gate and of row `r + n / 2` as up; INT8 weights are scaled by their group. |
| WarpGemv.PickBest | learning/10_cuda_decode/activation_int8.py:39-60 | The candidate loop keeps the first candidate with the least error. |
| Int4.GroupCodeNear | learning/09_int4/quantization.py:56-58 | Every code lies in -7..7 and restores its weight within half a scale. |
| Int4.CodeIsNearest | learning/09_int4/quantization.py:56-58 | A code is `7 * w / max` rounded to the nearest integer, halves to the even one; a group of zeros has scale one and codes zero. |
| Int4.PackedLayout | learning/09_int4/quantization.py:59-60 | Byte `j` holds the code of column `2j` in its low nibble and that of column `2j + 1` above it. |
| Int4.PairRoundTrip | learning/09_int4/quantization.py:59-60 | Two codes survive packing into one byte. |
| Int4.UnpackPack | learning/09_int4/quantization.py:59-70 | Unpacking returns the exact codes in their original order. |
| Int4.ErrorBound | learning/09_int4/quantization.py:36-71 | Every dequantized weight is within half its group's scale of the original. |
| Int4.QuantizedAt | learning/09_int4/quantization.py:51-62 | A quantized row written out: the scale of a group is a seventh of its greatest magnitude, and the four bits of column `c` are the integer nearest to `7 * w / max`, halves to the even one. |
| Int4.DequantizedAt | learning/09_int4/quantization.py:65-71 | A dequantized column is its four bits in two's complement times the scale of its group. |
| Int4.QuantizeIsIdempotent | learning/09_int4/quantization.py:36-71 | Quantizing the dequantized row reproduces its bytes and all its scales. |
| Int4.QuantizeInt4 | learning/09_int4/quantization.py:36-62 | The chunk loop accepts exactly the documented arguments, and its result does not depend on the chunk size. |
| Int4.Project | learning/09_int4/kernels.py:8-27 | The fused loop over packed bytes equals the plain dot product with the dequantized row. |
| TopK.HeadCandidates | learning/09_int4/kernels.py:38-50 | A tile stores its best rows, best first and lowest row first among equals, then sentinels. |
| TopK.NoSentinel | learning/09_int4/kernels.py:86-99 | A padding sentinel is never selected. |
| TopK.GlobalTopK | learning/09_int4/kernels.py:86-99 | Top-k of the candidates is the top-k of the vocabulary, with distinct valid rows and their logits, however the library breaks ties. |
| TopK.TopKValuesUnique | learning/09_int4/kernels.py:80-85 | Any two top-k selections of one size have the same values rank by rank. |
| TopK.TopOneIsLowest | learning/09_int4/kernels.py:95-96 | For k = 1 ties go to the lowest row of the whole vocabulary. |
| TopK.LmHeadTopK | learning/09_int4/kernels.py:77-99 | The whole call returns a top-k if and only if tile width and k are in range. |
| BusyTime.Summarize | profiling/summarize_traces.py:24-53 | The sweep computes the measure of the union of all intervals, their sum and the span; an empty trace and a span of zero raise. |
| BusyTime.BusyWithinSpan | profiling/summarize_traces.py:52-53 | Busy time never exceeds the span. |
| BusyTime.BusyIsTotal | profiling/summarize_traces.py:53 | Busy time never exceeds the total, and equals it if and only if no two kernels overlap. |
| Frontier.ThroughputLatencyFrontier | kernellab/analysis.py:29-48 | Returns exactly the undominated usable rows, by latency, along which throughput never falls. |
| Frontier.FrontierExact | kernellab/analysis.py:36-47 | No returned row is dominated, and every usable row is returned or dominated by a returned row. |
| Frontier.BestCount | kernellab/analysis.py:36-47 | A row is returned as often as it occurs if it is usable and no usable row is at least as good in both and better in one, and not at all otherwise. |
| Frontier.SortKeeps | kernellab/analysis.py:48 | Sorting keeps the rows of equal latency in their order. |
| Frontier.FrontierPeaks | kernellab/analysis.py:36-47 | The greatest usable throughput is on the frontier. |
| Frontier.SaturationPoint | kernellab/analysis.py:51-55 | The first error-free row with the greatest throughput; none if and only if no row is error-free. |

## Left out

- Transformer arithmetic, layers, heads and dtypes: one unknown K/V value per position stands for all layers, and one unknown function for the forward pass. That chunked prefill equals one pass is causality of that function.
- Sampling internals and random generators: a sample is an unknown function of parameters, logits, history and draw count. A sampler that raises has the effect of a missing logits row, which is modelled: the commit raises and the request is failed.
- Executor calls are atomic between awaits, and only one `step` runs at a time; locks are therefore not modelled.
- A failing executor call leaves arbitrary values, but only in the slots of its own work; failures that write elsewhere are not modelled.
- Time is any sequence of readings; nothing is stated about latency, TTFT or ITL metrics.
- A `Request` object shared between caller and scheduler is a value here, so a caller that mutates it after submitting is not modelled.
- The allocator's heap is a set with extract-minimum, and block counts divide exactly where the source uses a floating-point `ceil`.
- Error texts, log records, HTTP, tokenizer, CUDA Graph capture and replay, device and dtype checks.
- Rounding: attention, GEMM, reductions and quantization are over exact reals; infinities and NaN in weights are not modelled.
- PagedExecutor.QwenPagedExecutor.Prefill: slots inside the pages are a precondition, which the engine's invariant establishes, because an out-of-range index error is not modelled.
- Gemm.Launch: operands are addressed by row and column, not through the moving pointers and strides.
- SplitKernels.PagedAttention: the shape, dtype and workspace checks of the wrapper are preconditions.
- SplitKernels.SplitKvAttention: likewise.
- FlashAttention.AttentionForward: device, dtype and contiguity checks are not modelled.
- PagedGather.GatherPagedGqa: dtype, device and contiguity checks are not modelled, and block tables that cover their lengths are a precondition, as in the kernel.
- Allocator.PagedKVAllocator.Write: all layers are one value, so its layer range check is not modelled.
- Int4.QuantizeInt4: weights are reals, so its check for finite weights is not modelled.
- WarpGemv.Projection: `exp` is any positive function, and the BF16 steps between product, SiLU and store are not modelled.
- WarpGemv.PickBest: of the INT8 search only the choice among candidates and the dequantized product are modelled, not the channel scales.
- BusyTime.Summarize: the per-name and per-category dictionaries are not modelled.
- The other functions of kernellab/analysis.py, and `learning/02_swiglu`, which repeats the swizzle.
