# A Dafny model of miniVLLM

miniVLLM is a small inference engine in the style of vLLM v1: a scheduler with continuous
batching and chunked prefill over a paged KV cache, an EngineCore loop that drives a Worker,
a data-parallel coordinator, and CUDA kernels for paged, flash and GEMM computations.  This
project models its hard core and proves what the pieces are for.

## What is proved

**Batching refines running alone** (`protocol`, `cache`, `scheduler`, `worker`, `isolation`,
`solo`, `engine`, `engine_proofs`, `runs`, `divergence`, `effects`).  The engine is a step machine: commands
arrive, turns are taken, the Worker succeeds, fails after an arbitrary partial write of the batch's
slots, or dies.  `Runs.Run` folds any sequence of such inputs and carries the inductive invariant.
`Runs.RefinesSolo` says that a request reported as STOP or LENGTH streamed exactly the tokens of the
trivial specification in `solo`, which samples one token after the other from the dense sequence, for
the same reason; `Runs.StreamsPrefixOfSolo` says that every stream is at every moment a prefix of it;
`Runs.KVIsolation` is the storage half of the argument over whole runs.  The texts are in step with
the tokens exactly when decoding appends along them (`Runs.TextInStep`), and `Divergence.TextDiverges`
is a run where it does not.  `effects` says, on the states before and after, what one command, one
turn, one failure and one crash do and put out.

**Layers** (`layers`).  The Llama runner works layer by layer over a whole batch, with one cache per
layer.  On every scheduled batch this leaves in each cache that layer's share of the engine's store,
and every row is the causal transformer on the request's own tokens, whatever else is in the batch.

**Scheduling and accounting** (`planning`, `choice`, `totals`, `accounting`, `eventlog`,
`client_metrics`).  Admission as a declarative filter; exactly which running requests a step
schedules, with which chunks (`Choice.ScheduleChoice`); exact block conservation, exactly-once
completion, the phase invariant, and conservation of the client's token totals under arbitrary
duplication and interleaving of metrics.

**Liveness, exactly** (`progress`, `completion`, `stuck`, `liveness`).  Unconditional progress is
false, because running requests are never preempted: `Stuck.NeverDrains` is a concrete reachable
deadlock.  `Liveness.AdvancesIff` gives the exact condition, on the state before the turn, under which
a turn schedules anything; `Liveness.TurnExact` shows that a turn then strictly lowers the tokens left,
whether the Worker succeeds or fails, and otherwise changes nothing at all; `Liveness.Settles` and
`Liveness.DrainsExactly` bound when every run comes to rest.  `Completion.Drains` is the sufficient
condition in terms of worst-case demands, for any continuation without new requests, and
`Completion.Completes` adds that an undisturbed request then gets its solo output.

**Data parallelism** (`coordinator`, `coordinator_proofs`, `distributed`, `end_to_end`).  Client
queue, coordinator, N engines and FIFO queues both ways, as a transition system over all
interleavings up to and past a SHUTDOWN: load conservation, exact routing, aborts never overtake
adds, requests arrive as they were submitted, and the refinement theorem end to end.

**Kernels over exact reals** (`realsums`, `softmax`, `attention`, `online`, `two_pass`,
`paged_decode`, `cache_append`, `paged_validation`, `torch_attention`, `metadata`, `kernel_split`,
`graph_padding`, `graph_agreement`, `scheduled_kernels`, `scheduled_attention`, `flash_attention`,
`gemm`, `reference_runtime`).  Every fast kernel is an imperative method proved equal to a plain definition:
split multi-warp softmax, tree and butterfly reductions, tiles with zero padding, paged
addressing, the prefill/decode split against the causal mask, CUDA Graph padding, tiled GEMM.
`scheduled_kernels` shows that every batch the scheduler can emit meets the kernels' preconditions,
and `scheduled_attention` that one layer on such a batch reads each position at the slot the
scheduler gave it: every row is attention to what was cached for the request's earlier positions
and to its own chunk up to the token, whatever else the caches and the batch hold.

## How it is modelled

- Stateful Python classes are Dafny classes (`cache_class`, `scheduler_class`, `engine_class`,
  `coordinator_class`, `client_metrics`, `reference_runtime`, `layers`, `graph_padding`).  Each method is
  proved against a function on values; the theorems are about those functions.
- `RequestState` is a value inside the running map; an OrderedDict is an order plus a map.
- Exceptions are `None`, `false` or an error outcome, with the state they leave behind.
- A slot of the KV store holds all key and value vectors of one token.  They are an arbitrary
  function of the token and of what is read at the slots of the positions before it, so they may
  depend on position and on the whole prefix.  The engine model writes a batch token by token;
  `layers` relates this to layer-by-layer execution, and `reference_runtime` to the CPU kernels, whose
  vectors depend on the token alone.
- The sampler is an arbitrary function of the request id, the values read back through its context
  slots, the generated count and the temperature.  The tokenizer is an arbitrary decoder; texts are
  right if and only if decoding only appends along the output in question, which
  `CharacterTokenizer.CharactersIncremental` proves of the character tokenizer on every output.
- Prompts are nonempty and sampling parameters valid, as the client guarantees; configuration sizes
  are positive; request ids are not reused within a run.
- `exp` is any function with exp(a + b) = exp(a) exp(b) and exp > 0; minus infinity is `None`; a
  kernel's 0 / 0 is `None`.  Barrier-separated phases run one after the other; threads that write
  disjoint cells run in index order, and the disjointness is proved where it is not evident.

## Model

| member | source | states |
|---|---|---|
| KVCache.AllocateOk | minivllm/cache.py:18-23 | allocated blocks are distinct and were not in use, and free stack and used set still partition the pool |
| KVCache.CreateOk | minivllm/cache.py:46-49 | creating a table keeps the pool and table invariant, and releasing it at once restores the cache |
| KVCache.ReserveOk | minivllm/cache.py:51-61 | a reservation that fits keeps the invariant and leaves exactly ceil(target / block_size) blocks |
| KVCache.ReleaseOk | minivllm/cache.py:25-30 | the blocks of a table are distinct and allocated, so freeing them never raises, and the invariant holds after |
| KVCache.SlotsDisjoint | minivllm/cache.py:63-69 | two (request, position) pairs share a physical slot only if they are the same pair |
| KVCache.SlotIs | minivllm/cache.py:63-69 | a position's slot lies in the block that its table names, at the position's own offset |
| KVCache.BlockConservation | minivllm/cache.py:6-30 | the used set is the union of all tables, and free blocks plus held blocks are the pool |
| PagedCache.BlockPool.constructor | minivllm/cache.py:9-12 | a fresh pool has all blocks on the free stack in descending order, and none in use |
| PagedCache.BlockPool.AllocateBlocks | minivllm/cache.py:18-23 | pops `count` blocks off the top, in that order, and marks them used, or fails and changes nothing, exactly when too few are free |
| PagedCache.BlockPool.FreeBlocks | minivllm/cache.py:25-30 | succeeds exactly on distinct allocated blocks; otherwise the blocks before the first bad one stay freed |
| PagedCache.KVCacheManager.CreateTable | minivllm/cache.py:46-49 | adds an empty table, or fails exactly when the request has one |
| PagedCache.KVCacheManager.MayReserve | minivllm/cache.py:51-57 | whether the target fits the blocks that the request holds and those that are free |
| PagedCache.KVCacheManager.ReserveTable | minivllm/cache.py:59-61 | extends the table from the free stack until it holds the target, or fails and changes nothing exactly when held and free blocks are too few |
| PagedCache.KVCacheManager.Slots | minivllm/cache.py:63-69 | the physical slots of consecutive positions: each in its table's block, at its own offset |
| PagedCache.KVCacheManager.ReleaseTable | minivllm/cache.py:74-77 | returns the table's blocks; never raises while tables are disjoint; unknown ids are ignored |
| Scheduling.InitialInv | minivllm/scheduler.py:41-48 | the empty scheduler meets the invariant |
| Scheduling.AddInv | minivllm/scheduler.py:50-70 | accepting a request keeps the scheduler invariant |
| Scheduling.AdmitInv | minivllm/scheduler.py:72-85 | admission keeps the invariant after any number of attempts |
| Scheduling.ScheduleInv | minivllm/scheduler.py:87-121 | after scheduling, every request holds exactly the blocks of its computed tokens plus its chunk, and the counts match the items |
| Scheduling.CommitInv | minivllm/scheduler.py:123-124 | committing a chunk moves its item out of the pending batch and keeps the invariant |
| Scheduling.FinishHeadInv | minivllm/scheduler.py:169-173 | finishing a scheduled request returns its blocks and keeps the invariant for the rest of the batch |
| Scheduling.AbortInv | minivllm/scheduler.py:175-183 | aborting a running or waiting request keeps the invariant |
| Scheduling.AppendOk | minivllm/scheduler.py:126-148 | a token that does not finish the request leaves exactly one token to compute and all limits respected |
| TokenScheduler.Scheduler.constructor | minivllm/scheduler.py:41-48 | starts empty with a fresh cache |
| TokenScheduler.Scheduler.Enqueue | minivllm/scheduler.py:50-70 | appends to the queue, or refuses duplicates and prompts without generation capacity, changing nothing |
| TokenScheduler.Scheduler.AdmitWaiting | minivllm/scheduler.py:72-85 | the admission loop computes the specified admission and keeps the invariant |
| TokenScheduler.Scheduler.AdmitHead | minivllm/scheduler.py:75-85 | one attempt admits the head or moves it to the back with its table released |
| TokenScheduler.Scheduler.ScheduleStep | minivllm/scheduler.py:87-121 | the scheduling loop computes the batch, counts and reservations that Choice.ScheduleChoice characterises |
| TokenScheduler.Scheduler.ScheduleOne | minivllm/scheduler.py:93-120 | one round either reserves and emits a chunk or changes nothing, decided as in Choice.ScheduleChoice |
| TokenScheduler.Scheduler.Advance | minivllm/scheduler.py:123-124 | adds the scheduled count to one request's computed tokens |
| TokenScheduler.Scheduler.Append | minivllm/scheduler.py:126-148 | stores the token unless it is EOS and returns STOP, LENGTH or nothing by the documented order of tests, as Solo.AppendIsSolo requires |
| TokenScheduler.Scheduler.HitsAnyStop | minivllm/scheduler.py:137-139 | whether the decoded output ends with some stop string |
| TokenScheduler.Scheduler.FinishOne | minivllm/scheduler.py:169-173 | removes the request, returns its blocks and hands back its state; unknown ids change nothing |
| TokenScheduler.Scheduler.AbortOne | minivllm/scheduler.py:175-183 | aborts a running or waiting request, or reports that there is none |
| Planning.AdmissionFilter | minivllm/scheduler.py:72-85 | admission leaves the pool alone, tries a prefix of the queue once each, admits in order exactly those whose first chunk fits, and puts the others behind the untried ones |
| Planning.ScheduleEmpty | minivllm/scheduler.py:87-121 | the schedule is empty if and only if after admission no running request's full-budget chunk fits the free blocks |
| Planning.ScheduleBudget | minivllm/scheduler.py:89-121 | every chunk has a token, together they respect the budget, and only the last may be cut, and only when the budget is spent |
| Choice.ScheduleChoice | minivllm/scheduler.py:87-121 | after admission a running request gets an item if and only if tokens remain, some of the budget is left after the items before it, and the blocks of its chunk min(remaining, budget left) fit those left then; items follow the running order, with exactly those chunks |
| Planning.BatchSlotsDistinct | minivllm/scheduler.py:107-117 | all slots written by one batch are pairwise distinct |
| Planning.BatchGuards | runtime/minivllm_ops.cu:438-442 | every scheduled batch passes the batch checks, has at most max_num_seqs and at most num_blocks requests, tables that are not empty and fit the metadata width, and slots inside the physical cache |
| WorkerSide.FlattenShape | minivllm/worker/batch.py:47-109 | the flattened arrays have one entry per request or token, and start locations are sorted from zero to the totals |
| WorkerSide.FlattenSegment | minivllm/worker/batch.py:59-88 | each item's tokens, slots, positions, context and flags lie contiguously between its start locations |
| Metadata.PaddedTables | minivllm/worker/batch.py:90-93 | padded tables are as wide as the widest one, keep their own blocks, and fill up with -1 |
| Effects.FlattenCounts | minivllm/worker/batch.py:111-129 | the flattened batch counts its items, its tokens, and as decode tokens those of items with one token and earlier output |
| WorkerSide.AppendRead | minivllm/worker/operator_runtime.py:52-57 | with distinct slots every appended token's value can be read back, and is the one it got when it was written |
| WorkerSide.AppendFrame | minivllm/worker/operator_runtime.py:52-57 | other slots keep their contents, and exactly the written and old slots are present |
| Isolation.WriteItemsOk | minivllm/worker/model_runner.py:28-32 | writing a prefix of the batch's items puts their values in place and keeps every other request's values |
| Isolation.AppendHolds | minivllm/worker/model_runner.py:28-32 | the flattened append of a scheduled batch puts at every item's slots the values its tokens have on their own, and keeps the values of all computed tokens of all requests |
| Isolation.PartialWriteOk | minivllm/worker/operator_runtime.py:52-57 | an arbitrary partial write of the batch's slots spares the value of every computed token of every running request |
| Isolation.ReadBack | minivllm/worker/batch.py:78-83 | for every scheduled batch, gathering through an item's context slots after the batch's append yields exactly the values of its request's tokens [0, seq_len), run alone |
| Isolation.WrittenTail | minivllm/worker/batch.py:73-81 | an item's slot mapping is the tail of its context slots from its start position on |
| Isolation.ContextPresent | minivllm/worker/operator_runtime.py:92-101 | no kernel read misses: the whole flattened context of a scheduled batch is in the store |
| Isolation.ExecuteOk | minivllm/worker/model_runner.py:28-44 | on a scheduled batch the Worker succeeds and samples, exactly for the items that reach the end of their tokens, the token of the sequential run |
| Layers.LlamaModel.constructor | minivllm/model_executor/llama.py:349-362 | one cache per layer, with nothing written |
| Layers.LlamaModel.AppendLayer | minivllm/model_executor/attention.py:188-196 | a layer's cache ends as its share of the store in which the whole batch is written, other layers untouched |
| Layers.LlamaModel.DecoderLayer | minivllm/model_executor/llama.py:191-208 | append and attention take the batch's hidden states from one layer to the next |
| Layers.LlamaModel.Forward | minivllm/model_executor/llama.py:232-249 | all layers over all tokens give each token the hidden state that follows from its own context, and each cache its share of the store |
| Layers.LlamaModel.ExecuteModel | minivllm/model_executor/llama.py:396-403 | on every scheduled batch each row is the causal transformer of its request alone at that position, and the caches hold the layers' shares of the engine's next store |
| Layers.DenseIsCausal | minivllm/model_executor/llama.py:232-249 | the values of a dense run are the causal transformer's key and value vectors, layer by layer |
| Layers.ScheduledSettles | minivllm/worker/batch.py:73-83 | after a scheduled batch's append each of its tokens has the value that its context slots then give it, so no write of the batch disturbs what another token of it read |
| Layers.WithLayers | minivllm/model_executor/llama.py:349-362 | every transformer with vectors of one width is an instance of the engine's model |
| Solo.SearchLength | minivllm/scheduler.py:134-148 | the solo length is the least number of sampled tokens at which a verdict falls, at most max_tokens |
| Solo.StopIff | minivllm/scheduler.py:137-139 | the stop test holds if and only if the decoded output is some text followed by one of the stop strings |
| Solo.AppendIsSolo | minivllm/scheduler.py:126-148 | appending the sequential run's next token either continues unfinished or ends with the solo output and reason, whose verdicts are stated without the scheduler's tests |
| EngineProofs.HandleInv | minivllm/engine/core.py:64-82 | every command keeps the engine invariant: queues, cache, store contents and streamed traces |
| EngineProofs.CommitItemInv | minivllm/engine/core.py:124-155 | one round of the result loop keeps the invariant and streams the right token for the right request |
| EngineProofs.FailAllInv | minivllm/engine/core.py:119-123 | failing a batch ends each of its requests once and keeps the invariant for all others |
| EngineProofs.RespondInv | minivllm/engine/core.py:108-155 | whatever becomes of the Worker, the traces stay right, and the full invariant holds unless the process died |
| EngineProofs.TurnInv | minivllm/engine/core.py:98-155 | a whole turn keeps the engine invariant |
| EngineProofs.CrashInv | minivllm/engine/core.py:166-170 | a crash reports one final error to each live request and to no other |
| Effects.AddEffect | minivllm/engine/core.py:67-71 | an ADD is refused, with one error output and no other change, if and only if its id is live or its prompt leaves no room for a token; otherwise it joins the end of the queue |
| Effects.AbortEffect | minivllm/engine/core.py:72-82 | an ABORT of a live request, running or waiting, ends it with exactly one empty ABORT output and leaves every other request as it was; any other ABORT does nothing |
| Effects.FinishEffect | minivllm/scheduler.py:169-178 | finishing or aborting a running request keeps the order of the others and returns its blocks on top of the free stack in table order |
| Effects.DropEffect | minivllm/scheduler.py:179-182 | aborting a waiting request takes it out of the queue and keeps the order of the others |
| Effects.TurnReports | minivllm/engine/core.py:108-155 | a successful turn puts out the metrics of its batch, which count its requests, tokens, and prefill and decode tokens, and then, in batch order, one output for each item that completed its request's tokens, with the sequential run's token and those metrics |
| Effects.FailEffect | minivllm/engine/core.py:119-123 | a failed batch puts out one error per item, in order, and ends exactly the requests of its items |
| Effects.CrashEffect | minivllm/engine/core.py:166-170 | a crash puts out one error per running, then per waiting request, in queue order |
| Effects.DeltaIs | minivllm/engine/core.py:133-140 | the text of an output completes the decoded text when decoding appends, and is the decoding of its own token when it does not |
| Runs.Run | minivllm/engine/core.py:157-170 | every run of the loop satisfies the inductive invariant |
| Runs.RefinesSolo | minivllm/engine/core.py:98-155 | a request finished by STOP or LENGTH streamed exactly the tokens of running alone, for the same reason, for every interleaving, budget and block size; its text was right at every output if and only if decoding appends along that solo output |
| Runs.StreamsPrefixOfSolo | minivllm/engine/core.py:131-155 | at every moment the tokens streamed for a request are a prefix of its solo output, and so is the text when decoding appends along it |
| Runs.TextInStep | minivllm/engine/core.py:133-140 | in every reachable state and for every request, the texts sent are the decodings of the tokens sent, at every output, if and only if decoding appends along them |
| Divergence.TextDiverges | minivllm/engine/core.py:134-140 | with a decoder whose second token rewrites the first character, a reachable run streams the right tokens and a wrong text |
| Runs.NothingAfterFinal | minivllm/engine/core.py:116-155 | after a request's final output nothing more is sent for it |
| Runs.KVIsolation | minivllm/cache.py:59-77 | in every reachable state the slot that a table gives to a computed position p holds the value of position p in the dense run of the tokens [0, p], across reuse and failed batches |
| Runs.ReachableBatch | minivllm/engine/core.py:98-104 | every batch planned in a reachable state meets the premises of the theorems about one batch: its items fit the scheduler state, and every computed token's value is in the store |
| EngineLoop.Worker.FlattenBatch | minivllm/worker/batch.py:36-109 | the flattening loop computes the specified batch, or fails if and only if there is no item or some item has no tokens, another number of slots, a wrong end, or too few blocks |
| EngineLoop.Worker.Append | minivllm/worker/operator_runtime.py:52-57 | writes the tokens' values left to right, each from what its context slots then hold, or fails on lists of different length and changes nothing |
| EngineLoop.Worker.SampleAll | minivllm/worker/model_runner.py:34-44 | a token for exactly the requests with a sample index, from the values read through their context slots |
| EngineLoop.Worker.ExecuteBatch | minivllm/worker/worker.py:39-73 | one worker turn: flatten, append, read, sample, or report an error with the store it leaves |
| EngineLoop.EngineCore.HandleCommand | minivllm/engine/core.py:64-82 | ADD queues or reports an error, ABORT ends a live request with one output, SHUTDOWN stops the loop: the steps that Effects.AddEffect, Effects.AbortEffect and Completion.ShutdownQuiet characterise |
| EngineLoop.EngineCore.CommitOne | minivllm/engine/core.py:124-155 | advances the request, streams its token and text delta, and finishes it when told to |
| EngineLoop.EngineCore.CommitBatch | minivllm/engine/core.py:124-155 | the result loop over a batch |
| EngineLoop.EngineCore.FailBatch | minivllm/engine/core.py:119-123 | each item of a failed batch gets an error and is finished |
| EngineLoop.EngineCore.ReportCrash | minivllm/engine/core.py:166-170 | an error for every running, then every waiting request |
| EngineLoop.EngineCore.ExecuteSchedule | minivllm/engine/core.py:98-155 | one turn computes the specified step for every Worker outcome |
| EngineLoop.EngineCore.RunLoop | minivllm/engine/core.py:157-170 | the loop over any legal history of commands and outcomes, commands queued behind a SHUTDOWN included, reaches exactly the state of the step machine, to which all run theorems apply |
| Accounting.CompletionCount | minivllm/engine/core.py:64-82 | finished outputs emitted = requests handed in - (waiting + running), in every reachable state |
| Accounting.Conservation | minivllm/engine/core.py:116-129 | the tokens the batch metrics report as scheduled are exactly the computed tokens of all requests ever admitted |
| Accounting.ReachableBlocks | minivllm/cache.py:18-77 | in every reachable state free, used and tables partition the pool, and free + sum of ceil(computed / block_size) = num_blocks |
| Accounting.ReachablePhase | minivllm/scheduler.py:93-148 | every running request has an uncomputed token, exactly one once it has output, fewer than max_tokens outputs, and is shorter than the context limit |
| EventLog.TurnLog | minivllm/engine/core.py:103-118 | batch ids in the output log are fresh and increasing, and prefill + decode = scheduled in each |
| Progress.ReservationSucceeds | minivllm/scheduler.py:102-105 | if worst-case demands fit the pool, no reservation of a running request is ever refused |
| Progress.HeadScheduled | minivllm/scheduler.py:87-121 | with affordable demands the head of the running requests is scheduled in every turn |
| Progress.TurnMeasure | minivllm/engine/core.py:98-155 | with affordable demands a turn strictly lowers the tokens left and stays affordable, whether the Worker succeeds or fails; if the Worker dies the process ends; drained engines stay as they are |
| Completion.Drains | minivllm/engine/core.py:157-170 | with affordable demands and no new requests the engine has drained, or its process has ended, once the continuation holds as many turns as the sum of (cap - computed), whatever aborts, shutdowns, Worker failures and crashes it also holds |
| Completion.Completes | minivllm/engine/core.py:98-170 | under the same premises a live request that is not aborted, and whose turns do not fail, ends with exactly its solo output, for the solo reason |
| Completion.ShutdownQuiet | minivllm/engine/core.py:157-165 | after a SHUTDOWN only commands already queued are handled: no batch is planned, no block taken and nothing written to the store |
| Progress.LoneAffordable | minivllm/scheduler.py:55-62 | a lone request always qualifies |
| Stuck.NeverDrains | minivllm/scheduler.py:102-104 | unconditional progress is false: two ordinary requests whose first sampled tokens are not EOS reach a state that no number of turns changes, whatever becomes of the Worker |
| Liveness.AdvancesIff | minivllm/scheduler.py:72-121 | a turn schedules something if and only if a running request's chunk fits, or a seat is free and a waiting request's first chunk fits |
| Liveness.StuckStays | minivllm/scheduler.py:72-121 | a state that cannot advance is left exactly as it is, queue order included |
| Liveness.TurnExact | minivllm/engine/core.py:98-155 | whatever becomes of the Worker: a turn changes nothing at all if the state cannot advance; otherwise the process ends, if the Worker dies, or the tokens left strictly drop |
| Liveness.WorkBounded | minivllm/engine/core.py:157-170 | any continuation of a reachable state without new requests holds at most as many productive turns as there were tokens left |
| Liveness.Settles | minivllm/engine/core.py:157-170 | from every reachable state, after any sequence of as many turns as tokens are left, successful or not, the engine cannot advance, or its process has ended |
| Liveness.DrainsExactly | minivllm/engine/core.py:157-170 | after that many turns further turns change nothing, so without further commands the engine drains at all only if it has drained by then |
| Coordinator.LeastLoaded | minivllm/engine/dp_coordinator.py:54 | the first rank of least load |
| Coordinator.RouteEffect | minivllm/engine/dp_coordinator.py:49-62 | an ADD goes to the end of a least loaded rank's queue, is noted there and counted; an ABORT of a routed id goes to the end of its rank's queue; nothing else reaches a rank |
| CoordinatorLoop.DPCoordinator.constructor | minivllm/engine/dp_coordinator.py:45-47 | starts with no routes and zero load |
| CoordinatorLoop.DPCoordinator.PickRank | minivllm/engine/dp_coordinator.py:54 | the loop finds the first rank of least load |
| CoordinatorLoop.DPCoordinator.HandleCommand | minivllm/engine/dp_coordinator.py:49-62 | ADD is routed and counted, ABORT follows its route if there is one, SHUTDOWN is noted |
| CoordinatorLoop.DPCoordinator.DrainRank | minivllm/engine/dp_coordinator.py:77-89 | everything is forwarded in order, and each final output drops its route and one unit of load |
| CoordinatorLoop.DPCoordinator.CloseRanks | minivllm/engine/dp_coordinator.py:99-101 | a SHUTDOWN goes to the end of every rank queue, whose contents stay |
| CoordinatorProofs.ApplyInv | minivllm/engine/dp_coordinator.py:49-97 | every action of client, coordinator or engine, SHUTDOWN included, keeps the distributed invariant |
| Distributed.RunGlobal | minivllm/engine/dp_coordinator.py:91-97 | every reachable global state satisfies the distributed invariant |
| Distributed.LoadConservation | minivllm/engine/dp_coordinator.py:45-89 | rank_load[r] = ADDs queued to r + requests live in engine r + final outputs not yet drained from r |
| Distributed.ClampNeverTaken | minivllm/engine/dp_coordinator.py:87-89 | the clamp of rank_load at zero never takes effect |
| Distributed.RoutingExact | minivllm/engine/dp_coordinator.py:53-63 | request_ranks maps id to r exactly while its ADD is queued to r, it is live in r, or its final output waits in r |
| Distributed.AbortReaches | minivllm/engine/dp_coordinator.py:59-62 | routing an ABORT of a request that is queued to a rank or live there puts it last in that rank's queue |
| Distributed.AbortAfterAdd | minivllm/engine/dp_coordinator.py:59-62 | an engine that takes an ABORT off its queue has handled the matching ADD before |
| EndToEnd.RequestsIntact | minivllm/engine/dp_coordinator.py:53-58 | every ADD in transit and every request in an engine is exactly as the client submitted it |
| EndToEnd.ClientSeesSolo | minivllm/engine/dp_coordinator.py:77-89 | end to end, a client stream that ends in STOP or LENGTH is the solo output of the request that was submitted, for the solo reason, and its text is right at every output if and only if decoding appends along it |
| EndToEnd.ClientSeesPrefix | minivllm/engine/dp_coordinator.py:77-89 | at every moment what a client has received for a submitted request is a prefix of its solo tokens, and of its text when decoding appends |
| EndToEnd.NothingUnsubmitted | minivllm/engine/dp_coordinator.py:77-89 | no output is ever forwarded for a request that was not submitted |
| ClientMetrics.EngineCoreClient.RouteOutputs | minivllm/engine/client.py:62-80 | each total sums over distinct (rank, batch_id), first copies only |
| ClientMetrics.ClientTotals | minivllm/engine/client.py:62-80 | in every reachable global state the deduplicated total is the sum, over ranks, of the batches whose metrics were drained |
| ClientMetrics.MetricsConservation | minivllm/engine/client.py:62-80 | once drained, the client's scheduled total is the number of tokens computed for all requests ever admitted on any rank |
| ClientMetrics.SplitTotals | minivllm/engine/client.py:72-76 | in every reachable global state the client's prefill and decode totals add up to its scheduled total |
| ClientMetrics.PhaseTotals | minivllm/engine/client.py:72-76 | in every reachable global state the client's prefill and decode totals are the sums, over ranks, of what the drained batches reported of each |
| CharacterTokenizer.DecodeEncode | minivllm/tokenizer.py:29-39 | every character becomes its code point plus three, and decoding an encoded text succeeds and returns the text |
| CharacterTokenizer.EncodeDecode | minivllm/tokenizer.py:29-39 | decoding fails exactly on a token above the code points; otherwise re-encoding drops exactly the control tokens |
| CharacterTokenizer.CharactersIncremental | minivllm/engine/core.py:133-140 | decoding only appends, and each streamed delta is the decoding of its own token |
| RealSums.TreeReduce | runtime/torch_attention_cuda.cu:79-86 | the in-place halving reduction leaves the sum in cell 0 |
| RealSums.ShuffleDownSum | kernels/paged_kv_cache/paged_kv_cache.cu:104-110 | the shuffle-down reduction leaves the sum of all lanes in lane 0 |
| RealSums.ButterflySum | kernels/flash_attention/flash_attention_prefilling.cu:161-165 | the xor-butterfly leaves the sum of all lanes in lane 0 |
| Attention.LanePartials | kernels/paged_kv_cache/paged_kv_cache.cu:209-217 | each lane holds the sum of the products at its stride |
| Attention.WarpDot | kernels/paged_kv_cache/paged_kv_cache.cu:209-218 | strided lanes and shuffle-down compute the dot product |
| Softmax.AnyReference | kernels/paged_kv_cache/paged_kv_cache.cu:305-325 | subtracting any reference point from all scores gives the same softmax average |
| Softmax.OnlineAbsorbs | runtime/torch_attention_cuda.cu:87-106 | one online update keeps the greatest score as its reference and turns the weighted sum of a prefix into that of the prefix and one more token |
| Softmax.PartsMerge | kernels/paged_kv_cache/paged_kv_cache.cu:245-269 | strided parts, rescaled to a common maximum, add up to the whole, parts without tokens included |
| PagedDecode.SharedHead | kernels/paged_kv_cache/paged_kv_cache.cu:176-177 | query head q reads K/V head g if and only if g * group <= q < (g + 1) * group, where group * kv_heads = query_heads |
| PagedDecode.HeadRepeated | minivllm/model_executor/attention.py:127-129 | repeating every K/V head group times in a row gives each query head the K/V head that the kernels compute |
| PagedDecode.WarpSweep | kernels/paged_kv_cache/paged_kv_cache.cu:200-242 | a warp's statistics are relative to the greatest score of its stride, and with its row are its strided share of the softmax sums |
| PagedDecode.MergeMax | kernels/paged_kv_cache/paged_kv_cache.cu:246-249 | the maximum over warps that saw a token, or none |
| PagedDecode.MergeShares | kernels/paged_kv_cache/paged_kv_cache.cu:250-269 | the sum of the rescaled shares, skipping warps without tokens |
| PagedDecode.DecodeBlock | kernels/paged_kv_cache/paged_kv_cache.cu:152-273 | a thread block's row is the softmax attention over the paged context, or not a number if there is no token |
| TwoPass.ReferenceRow | kernels/paged_kv_cache/paged_kv_cache.cu:289-325 | the two-pass reference computes the same attention row |
| CacheAppend.ThreadsDisjoint | kernels/paged_kv_cache/paged_kv_cache.cu:126-149 | no two threads of an append write the same cell |
| CacheAppend.Layout | kernels/paged_kv_cache/paged_kv_cache.cu:126-149 | vectors of the caches and of the inputs lie at ((slot or token) * kv_heads + head) * head_dim |
| CacheAppend.AppendByTable | kernels/paged_kv_cache/paged_kv_cache.cu:112-150 | every head of every token ends up at its position's slot, and every other slot is as before |
| CacheAppend.AppendBySlot | runtime/torch_attention_cuda.cu:15-41 | every head of every active token ends up at its mapped slot, and every other slot is as before |
| PagedValidation.AppendAll | kernels/paged_kv_cache/paged_kv_cache.cu:466-493 | after all appends every sequence is readable through its own table, given disjoint tables |
| PagedValidation.ReferenceDecode | kernels/paged_kv_cache/paged_kv_cache.cu:275-328 | every output row is dense attention of its sequence and query head, whose K/V heads are repeated over their groups, read at the host tensors' max_seq_len stride |
| PagedValidation.StridedIsDense | kernels/paged_kv_cache/paged_kv_cache.cu:297-301 | reading the host tensor at its stride is reading the slice that was copied to the device |
| PagedValidation.LaunchDecode | kernels/paged_kv_cache/paged_kv_cache.cu:152-273 | every output row of the launch is attention through the block table |
| PagedValidation.PagedRowIsReference | kernels/paged_kv_cache/paged_kv_cache.cu:152-328 | the paged row equals the reference row exactly when the sequence is not empty; otherwise the kernel's row is not a number and the reference's is zero |
| PagedValidation.Validate | kernels/paged_kv_cache/paged_kv_cache.cu:466-553 | append, launch and reference agree cell by cell for every length, warp count, GQA ratio and disjoint tables |
| Metadata.IndicesInvert | minivllm/model_executor/attention.py:40-47 | request_indices[j] = k if and only if query_start_loc[k] <= j < query_start_loc[k + 1] |
| Metadata.MetadataFromBatch | minivllm/model_executor/attention.py:26-68 | metadata exists exactly when no width is given or the width holds every item's table, and then gives each request its positions, length, flags and own blocks |
| TorchAttention.BlockDot | runtime/torch_attention_cuda.cu:68-86 | one product per thread, zeros past head_dim, tree reduction: the dot product |
| TorchAttention.OnlinePagedAttention | runtime/torch_attention_cuda.cu:44-113 | the row is softmax attention over the first context_len paged positions |
| KernelSplit.EagerLaunch | minivllm/model_executor/attention.py:26-68 | the metadata of every accepted batch is consistent for both kernels |
| KernelSplit.WrittenOnce | runtime/torch_attention_cuda.cu:132-190 | each active row is written by exactly one of the two kernels, by one block, and inactive rows by none |
| KernelSplit.MaskedPrefix | minivllm/model_executor/attention.py:134-142 | causally masked attention over the whole context is attention over the admitted prefix |
| KernelSplit.CustomIsTorch | minivllm/model_executor/attention.py:117-143 | each row of the kernels equals the row of the masked tensor reference, whose K/V heads are repeated over their groups |
| KernelSplit.FlashPrefill | runtime/torch_attention_cuda.cu:115-160 | computes the rows of prefill tokens and leaves decode and inactive rows at zero |
| KernelSplit.PagedDecodeOut | runtime/torch_attention_cuda.cu:162-207 | computes the rows of decode requests and leaves all others as they are |
| KernelSplit.Forward | minivllm/model_executor/attention.py:175-220 | append, prefill and decode kernels together give, on the updated caches, the masked reference's row for every active token |
| ScheduledAttention.ContextSlot | runtime/torch_attention_cuda.cu:70-71 | for every accepted batch the slot that the kernels compute from the padded table for position p of request k is the one in the Worker's context mapping, and the one of the scheduler's block table |
| ScheduledAttention.AppendedContext | runtime/torch_attention_cuda.cu:15-41 | after the append of a scheduled batch the slot of position p of a request holds the row of the batch's token for p, or, before the chunk, what it held |
| ScheduledAttention.ForwardScheduled | minivllm/model_executor/attention.py:175-220 | one layer on a scheduled batch: each row is attention of its own query to the cached rows of its request's earlier positions and to its chunk's rows up to itself |
| GraphPadding.GraphState.constructor | minivllm/model_executor/llama.py:408-439 | static tensors start at their neutral values, with the slot mapping arbitrary |
| GraphPadding.CreateGraphState | minivllm/model_executor/llama.py:405-439 | refuses exactly the capture sizes above max_num_seqs; otherwise a fresh state with no active row |
| GraphPadding.StaticRow | minivllm/model_executor/llama.py:451-486 | row by row, live rows are the batch's own, and padding row k is one inactive token at position 0, with an all-zero table and slot physical + k |
| GraphPadding.GraphState.CopyDecodeBatch | minivllm/model_executor/llama.py:441-486 | refuses other than fitting uniform decode batches and then changes nothing; fails midway, leaving no row active, exactly on tables wider than the static tensor; otherwise the state is a function of the current batch alone, whatever came before |
| GraphAgreement.GraphLaunch | minivllm/model_executor/llama.py:441-486 | the padded state is consistent for both kernels |
| GraphAgreement.GraphSlots | minivllm/model_executor/llama.py:349-354 | all slots of the padded state are distinct and in range, and padding rows use scratch slots beyond the physical cache |
| GraphAgreement.ReplayIsEager | minivllm/model_executor/llama.py:515-531 | given the same caches, live rows of a replay of an already captured graph mean the same as the rows of eager execution |
| GraphAgreement.SameCache | minivllm/model_executor/llama.py:441-486 | an append padded with inactive rows leaves the same cache as the append without them |
| GraphAgreement.LayerAgrees | minivllm/model_executor/llama.py:515-531 | a replayed layer leaves the same caches as the eager layer, and the same live rows |
| GraphPadding.PadDecodeGraph | runtime/minivllm_ops.cu:488-521 | status 50 exactly when the guard fails; otherwise live rows are unchanged, padding row r repeats the last request's token, length and table, tables fill up with -1, its slot is physical + r, and all slots are distinct |
| ScheduledKernels.ScheduledPadding | runtime/minivllm_ops.cu:498-521 | every scheduled uniform decode batch passes the C runtime's guard at any capture size up to max_num_seqs, with distinct physical slots |
| ScheduledKernels.ScheduledLaunch | minivllm/model_executor/llama.py:369-403 | every scheduled batch has metadata, can be launched, and writes distinct physical slots |
| ScheduledKernels.ScheduledReplay | minivllm/worker/worker.py:21-28 | every scheduled uniform decode batch can be replayed at any capture size up to max_num_seqs, and exactly its live rows use physical slots |
| ReferenceRuntime.ReferenceKernelRuntime.constructor | minivllm/worker/operator_runtime.py:42-47 | starts with empty caches |
| ReferenceRuntime.ReferenceKernelRuntime.Append | minivllm/worker/operator_runtime.py:52-57 | the key and value caches are the halves of the engine's store after the append, for a model whose values depend on the token alone; unequal lists change nothing |
| ReferenceRuntime.ReferenceKernelRuntime.OnlineAttention | minivllm/worker/operator_runtime.py:59-74 | the online loop computes softmax attention over the cached slots |
| ReferenceRuntime.ReferenceKernelRuntime.AttentionBatch | minivllm/worker/operator_runtime.py:92-104 | one row per request, from its own context; an empty row for an empty context; the last row is kept as the last output |
| ReferenceRuntime.BatchedIsSolo | minivllm/worker/operator_runtime.py:92-101 | for every scheduled batch, once its K/V is appended, the row of each request is the attention of that request alone on its own tokens, and no other row |
| FlashAttention.SliceIs | kernels/flash_attention/flash_attention_prefilling.cu:97-108 | element d of row i of a slice lies at (slice * len + i) * dim + d |
| FlashAttention.LoadTile | kernels/flash_attention/flash_attention_prefilling.cu:97-108 | a tile holds its rows of the slice, zeros past the sequence |
| FlashAttention.RescaleLanes | kernels/flash_attention/flash_attention_prefilling.cu:183-188 | every dimension is updated once, in the register of the lane that owns it |
| FlashAttention.SweepTile | kernels/flash_attention/flash_attention_prefilling.cu:145-192 | one tile extends the online state by its keys, skipping those past the sequence |
| FlashAttention.SweepRow | kernels/flash_attention/flash_attention_prefilling.cu:127-194 | after all tiles the online state covers every key of the slice |
| FlashAttention.FusedKernel | kernels/flash_attention/flash_attention_prefilling.cu:61-211 | every row of every slice is attention of its query over all keys of the slice |
| FlashAttention.ReferenceAttention | kernels/flash_attention/flash_attention_prefilling.cu:364-412 | so does the two-pass reference |
| FlashAttention.Compare | kernels/flash_attention/flash_attention_prefilling.cu:61-412 | tiled and two-pass attention are the same tensor for every sequence length, tile size and warp count |
| Gemm.EntryIs | kernels/GeMMs/GeMMs.cu:9-25 | entry (i, j) is the sum over p of A[i * k + p] * B[p * n + j] |
| Gemm.PaddedEntry | kernels/GeMMs/GeMMs.cu:52-89 | the zero-padded sum over tiles equals the plain dot product |
| Gemm.Quad | kernels/GeMMs/GeMMs.cu:75-85 | a thread's four registers grow by the products of two rows and two columns of the tiles |
| Gemm.Block | kernels/GeMMs/GeMMs.cu:28-95 | a block writes exactly the entries of its tile that exist, with the product's values |
| Gemm.TiledMatMul | kernels/GeMMs/GeMMs.cu:28-95 | the tiled launch computes every entry of the product |
| Gemm.PlainMatMul | kernels/GeMMs/GeMMs.cu:9-25 | so does the plain kernel |
| Gemm.Owner | kernels/GeMMs/GeMMs.cu:133-135 | every row and column index belongs to some block, thread and register of the launch |
| Gemm.CornerInTile | kernels/GeMMs/GeMMs.cu:44-45 | a thread's corner, as the kernel computes it, is twice its index past the corner of its block's tile |
| Gemm.OwnerUnique | kernels/GeMMs/GeMMs.cu:44-45 | and to no other |
| Gemm.CompareMatMul | kernels/GeMMs/GeMMs.cu:9-95 | tiled and plain products are the same matrix for all sizes and even tile sides |

## Left out

- HTTP server, argument parsing, async and sync facades, process start and termination, queue timeouts: I/O; queues appear as FIFO sequences only.
- The arithmetic inside a decoder layer (projections, rotary embedding, norms, MLP), weight loading and temperature sampling: arbitrary functions of layer, hidden state, position and the vectors attended to; the engine's sampler is a function of the values in the cache.
- Floating-point rounding, half precision and 32-bit index overflow: the kernels are over exact reals and unbounded integers; the running maximum is proved to be the greatest score, so no exponent is positive, but what that saves in floating point is not stated.
- CUDA memory management, stream capture and replay, ctypes and Torch bindings: a replay is the captured function on the static state.
- HuggingFaceTokenizer: its library is not part of this model; text statements are proved for any decoder, exactly on the outputs along which it only appends.
- Latency fields and the wall-clock parts of the metrics: clock reads.
- CUDAGraphDispatcher's choice of a bucket and configuration validation: single branches; every capture size that the runner accepts is covered.
- kernels/paged_kv_cache/block_pool.cpp and kv_cache_manager.cpp: the same LIFO allocator as minivllm/cache.py.
- The C runtime's single-threaded last-token kernels: the same online loop as the CPU reference, which is modelled.
- Reuse of a request id within a run: the repository guarantees nothing for it.
- Decoders that raise: in the engine model decoding is total, so a sampled token outside the tokenizer's range does not end the loop.
- GraphAgreement.ReplayIsEager: the first call for a capture size records the graph and samples from its output buffer without a replay; what that buffer then holds is up to the CUDA runtime.
- GEMM launches with a tile size other than 16 or 32: block shape and template then disagree.
- FlashAttention.FusedKernel: warps of a pass run one after the other and reload the K/V tiles, which hold the same values for each of them.
- CacheAppend.AppendByTable: offsets must be distinct and below the covered length, since equal offsets would race.
- KernelSplit.CustomIsTorch: scaled_dot_product_attention is a library call, stated as softmax in which masked scores weigh nothing.
- Completion.Drains: a sufficient condition; the exact one, turn by turn, is Liveness.AdvancesIff.
