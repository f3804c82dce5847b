# InferFabric: verified models of its serving and execution logic

InferFabric compiles a language model into a token program and serves it on NPUs. This project models, in Dafny, the
parts of it whose correctness is a matter of logic rather than of kernel arithmetic, and proves what they are for:

* **Serving** (`Requests`, `Prefixes`, `ServiceState`, `ServiceSteps`, `Residents`, `Rotation`, `Batching`, `Service`,
  `History`, `LostNotice`).
  `Service.Backend` is the resident request scheduler together with the client calls that share its registry, its
  admission queue and its bounded output streams. The engine is a deterministic function of each slot's token history
  that may fail at any operation. Between any two shared accesses of the worker, `Interfere` lets any number of client
  steps happen: admissions, aborts, dropped receivers, reads, shutdown. Mutexes and channel operations are atomic steps.
  What both sides keep is `Backend.Ok`; a job's `Place` says who owns it. The ghost log `Backend.log` has one `Round` for
  each completed iteration of the serving loop: worlds and slots at its top, after its admissions and after its tick, and
  who advanced by how much. `Backend.Run` ties the log to where the run began and to where its closing begins; `History`
  reads single requests off it.
* **Packed batches, their traces and cache rows** (`SequenceBatch`, `Attention`, `BatchTrace`, `BatchDriver`, `Quantization`).
* **Token programs** (`TokenPlan`, `KernelContracts`, `InPlace`, `CompactRows`, `Dispatch`): the plan reader, the
  contracts that license overwriting a slice view and running the tail on selected rows, and the executions they license.
* **Paged state** (`SlidingWindow`, `PagedState`): the recycled-page ring against an unbounded cache.
* **Checkpoint loading** (`LoadPlan`, `Loader`, `LoadRun`) and **arenas and tables** (`FrozenArena`, `ArenaBinder`,
  `ArenaPool`, `SampledTable`).

`Arith` and `Counting` hold the division, counting and pigeonhole facts the others use. `dafny verify dfyconfig.toml`
checks everything.

## What the proofs brought out

* A stream is not always ended by the worker. On shutdown, or after an engine error, the failure notice is sent without
  waiting. A job whose client stayed ends if and only if any notice due to it found room in its queue, counting what the
  client had read by then (`ServiceState.EndedIff`, kept by every step and stated of every stream at the end of
  `Backend.Run`). `LostNotice.Lose` is a whole run, from an empty backend, in which a client with 64 unread tokens gets no
  last item.
* The prefix forecast of `restore_prefix` equals what the scheduler executes for a cold request exactly when the batch
  capacity is zero or at least one full chunk; with a narrower batch the first forward already differs
  (`Prefixes.ForecastHoldsIff` for all executions, `History.ServedAsForecastIff` for the log of every run).
* `validate_sparse_attention_indices` compares only the last query end with the table's size. It stays inside the table
  for all lengths and candidates exactly when no end reached without a descent exceeds the last one
  (`Attention.InsideIff`); the ascending ends of a packed batch never do.
* `head_to_token` counts as fresh storage for `exclusive_region`, but with one token it returns its input. That is sound
  only because its producer has no other reader, which is why `InPlace` needs both contracts. With several tokens slices
  and `head_to_token` are copies, and the same check is sound for another reason: nobody but the convolution may look at
  its input at all. `InPlace.Mode` covers both, and opaque values that keep a reference to a tensor.

## Model

| member | source | states |
|---|---|---|
| Requests.SoloIsExpected | frontend/src/program_worker.rs:159-203 | feeding the samples of a lone engine back publishes exactly the expected items, with one finish reason, on the last of them |
| Requests.DeliveredIsSolo | frontend/src/program_worker.rs:159-203 | items delivered in order up to a terminal one are a prefix of the request's solo run, and all of it exactly when the last one carries a finish reason |
| Requests.AloneEndsWhere | frontend/src/program_worker.rs:159-203 | a lone run has at least one item and at most the token limit, ends at its first token that is the end token, a stop token or the last one asked for, and gives the first of these reasons that applies; the prompt rides on the first item only |
| Requests.DeliveredEndsWhere | frontend/src/program_worker.rs:173-203 | a delivered item is terminal exactly if its token stops the request, for that reason, and none before it did |
| Requests.ValidateCapacity | frontend/src/native_backend.rs:273-291 | the walk over prompt and stop tokens passes exactly the admissible requests |
| Prefixes.ChunkFits | crates/inferfabric-native/src/program.rs:724-727 | a chunk asked for within a positive limit is positive and within the limit, for uncaptured and for compiled widths |
| Prefixes.AlignedChunkIsLcm | frontend/src/program_cached.rs:10-14 | a position is a multiple of alignment and of chunk exactly when it is a multiple of the aligned chunk |
| Prefixes.ComputeUncapturedBoundary | frontend/src/program_cached.rs:10-15 | the remainder loop and the 64-bit products compute the boundary for all 32-bit arguments: the aligned chunk is positive and fits 64 bits, the result 32 |
| Prefixes.BoundaryIsGreatest | frontend/src/program_cached.rs:10-15 | the boundary is the greatest common multiple of alignment and chunk below the prompt length |
| Prefixes.BoundaryIs | frontend/src/program_cached.rs:74-80 | in both modes the boundary is the last place short of the prompt that is a multiple of the alignment and, uncaptured, of the full chunk |
| Prefixes.CheckpointCostsNoForward | frontend/src/program_cached.rs:99-112 | stopping at a multiple of the chunk leaves the number of forwards at the ceiling of prompt over chunk |
| Prefixes.LimitFits | frontend/src/program_cached.rs:142-149 | the limit is positive and inside the prompt, so the worker's two boundary errors cannot arise |
| Prefixes.PredictHistory | frontend/src/program_cached.rs:156-174 | the prospective loop produces the forecast up to the boundary and ends |
| Prefixes.WidthIgnoresPeers | frontend/src/program_worker.rs:338-348 | an uncaptured prefill that runs in a tick is as wide as limit and full chunk allow, whatever peers have used of the budget |
| Prefixes.WidthIsWidest | frontend/src/program_worker.rs:288-291 | every prefill forward, serial or batched, is the widest there is that stays within its share of tokens, the prompt and the boundary, and one token where no compiled width does |
| Prefixes.ForecastIsExecuted | frontend/src/program_cached.rs:150-187 | every execution of a cold request under any peer load agrees with the forecast, position by position and width by width, so some step lands on the boundary |
| Prefixes.ForwardCount | frontend/src/program_cached.rs:99-112 | a cold prefill with a checkpoint takes the ceiling of prompt over chunk forwards |
| Prefixes.ForecastHoldsIff | frontend/src/program_cached.rs:150-187 | the forecast holds for every peer load if and only if full chunks fit the batch capacity |
| History.TraceRun | frontend/src/program_worker.rs:222-373 | whatever job a run seats, it seats once, and the forwards in the log are lawful at their positions and tile its tokens from what was restored to where it stands |
| History.LogIsServed | frontend/src/program_worker.rs:204-373 | every resident in the log of a whole run from empty slots has such a history, so the results on contiguity, forecast and forward count apply to it |
| History.RowsAreContiguous | frontend/src/program_worker.rs:140-166 | over a whole admission, in both modes, a resident's spans are contiguous from its cached prefix on |
| History.RowsOnce | frontend/src/program_worker.rs:140-166 | spans that tile a stretch compute each of its rows in exactly one span and no other row |
| History.PrefillIsExecution | frontend/src/program_worker.rs:338-348 | the prompt's forwards in the log are an execution in the sense of the forecast, with whatever peers left of each tick |
| History.ServedAsForecastIff | frontend/src/program_cached.rs:150-187 | in every run a cold request is prefilled as forecast, whoever shared its ticks, if and only if full chunks fit the batch capacity |
| History.ServedForwardCount | frontend/src/program_cached.rs:99-112 | in every run a cold request past its prompt took the ceiling of prompt over chunk forwards for it |
| ServiceState.IdsAreUnique | frontend/src/native_backend.rs:229-249 | no two queued or resident jobs, the one inside the registry lock included, share a request id |
| ServiceState.StreamsAreSolo | frontend/src/program_worker.rs:127-203 | in every reachable state a stream's outputs are a prefix of its request run alone, complete exactly when it ended with a finish reason, and an item is terminal exactly if its token stops the request |
| ServiceState.EndedIff | frontend/src/program_worker.rs:376-391 | a stream whose job has left and whose client stayed has ended if and only if any failure notice found room for it, and with a finish reason if none was due |
| ServiceSteps.AbortReachesRegistered | frontend/src/native_backend.rs:251-259 | abort sets the flag of exactly the registered jobs named and does nothing else to any stream |
| ServiceSteps.SubmitKeeps | frontend/src/native_backend.rs:229-247 | pushing a job before its registry insert keeps the invariant, with the lock's holder as the one exception to the registry |
| ServiceSteps.UnregisterKeeps | frontend/src/program_worker.rs:110-114 | removing a job's entry removes nobody else's |
| ServiceSteps.SendKeeps | frontend/src/program_worker.rs:185-202 | a terminal item may be sent only to a job that has left its slot, and every output is the next expected one |
| ServiceSteps.NoticeKeeps | frontend/src/program_worker.rs:382-391 | trying the failure notice keeps the invariant, adds one item exactly if there was a receiver with room, and never touches what was sent |
| ServiceSteps.NobodyLeft | frontend/src/program_worker.rs:376-392 | empty slots, queue and hand mean that every job is gone, so clearing the registry loses nobody |
| Residents.SampleIsExpected | frontend/src/program_worker.rs:159-196 | once the engine holds prompt and outputs so far, its sample is the next token of the solo run |
| Residents.FeedOk | frontend/src/program_worker.rs:132-156 | feeding the next prompt piece or the last sample keeps the slot's history the first positions of prompt plus emitted tokens |
| Residents.FedWithinLimits | frontend/src/native_backend.rs:273-291 | for an admitted request the engine is never fed a token outside the vocabulary, nor more tokens than the context holds |
| Residents.PeersKept | frontend/src/program_worker.rs:204-364 | what happens to one resident's slot, stream and engine state leaves its peers as they were |
| Rotation.BoundedWaiting | frontend/src/program_worker.rs:277-364 | over `residents` consecutive fair ticks an occupied slot that is never skipped is advanced, because cursor distance decreases |
| Rotation.SweptIsFair | frontend/src/program_worker.rs:319-364 | a turn that met everyone, or that stopped with its cursor moved, advances, skips or comes closer to each resident |
| Rotation.ChainServes | frontend/src/program_worker.rs:222-373 | in a run, a slot with room at the start and no cancellation by the end of `residents` rounds on end moves on or ends in one of them |
| Rotation.AccountingNext | frontend/src/program_worker.rs:319-364 | each visit of a turn keeps the account of it true: who was met, who moved by what, who was skipped and why, and who is still as the turn found them |
| Rotation.TurnIsFull | frontend/src/program_worker.rs:319-348 | a turn that ended within its budget because everyone had been met, the budget was spent, or the next forward needs more than is left, leaves out nobody it could have served |
| Rotation.DecodersAdvanceTogether | frontend/src/program_worker.rs:279-300 | in a full turn, with a token of budget for each slot, residents that all decode are all advanced, those skipped excepted |
| Rotation.DesertedLeaves | frontend/src/program_worker.rs:222-227 | whose client had gone at the top of an iteration is out of its slot by its tick, and nobody whose client had gone when the tick began is advanced |
| Batching.UnfinishedHasTokensLeft | frontend/src/program_worker.rs:173-183 | a resident that has not ended still has tokens to generate |
| Batching.WorkerBatchesAreAcceptable | frontend/src/program_worker.rs:279-303 | every non-empty batch the worker collects is one that SequenceBatch::make accepts, given the admission bound |
| Batching.Land | frontend/src/program_worker.rs:306-313 | accounting for one member leaves the members still in flight, and everyone at rest, as they were |
| Batching.PlanIsFair | frontend/src/program_worker.rs:279-300 | collecting a batch in rotation order is fair, the full-quantum deferral included |
| Batching.PlanIsFull | frontend/src/program_worker.rs:284-300 | a batch is filled: collection ends after the whole turn, or at a resident that needs more than is left |
| Service.Backend.GenerateSubmit | frontend/src/native_backend.rs:221-247 | which of the five answers a call gets, given what an earlier health reading found, so a call that passed it before shutdown was requested can still be accepted until the queue closes; only acceptance changes anything, by exactly one queued job |
| Service.Backend.GenerateInsert | frontend/src/native_backend.rs:248-249 | the rest of the call under the lock registers exactly that job |
| Service.Backend.Abort | frontend/src/native_backend.rs:251-259 | the new world is the one with the named, registered jobs flagged, and the invariant holds |
| Service.Backend.Poll | frontend/src/native_backend.rs:190-195 | the client takes the oldest unread item and changes nothing else |
| Service.Backend.Interfere | frontend/src/native_backend.rs:206-268 | any number of client steps keep the invariant and only append jobs, set flags and read outputs |
| Service.Backend.Detach | frontend/src/program_worker.rs:110-114 | the slot is emptied and the job's id leaves the registry, no other stream being touched |
| Service.Backend.Complete | frontend/src/program_worker.rs:116-126 | a failed release changes nothing and publishes nothing; otherwise slot and registry entry are gone before the terminal output is sent once, or its receiver had closed |
| Service.Backend.FinishAdvance | frontend/src/program_worker.rs:159-203 | after any completed forward the slot is consistent with prompt and emitted tokens, or has ended with the expected terminal output or a cancellation; for a job cancelled by then nothing is published |
| Service.Backend.Advance | frontend/src/program_worker.rs:127-158 | one forward moves one resident by the width due, within the budget, and disturbs nobody else |
| Service.Backend.Visit | frontend/src/program_worker.rs:323-363 | a visit releases exactly the cancelled, skips only the cancelled or full, defers only where the full quantum needs more than is left, and otherwise runs a forward the forecast allows at that position |
| Service.Backend.SerialTick | frontend/src/program_worker.rs:319-372 | unless stopped the tick is fair and leaves out nobody its budget could have served; who it reports as advanced has moved by the width reported, in a lawful forward, nobody else has changed, every skip was justified, and after a stop nobody is advanced |
| Service.Backend.EvictCancelled | frontend/src/program_worker.rs:223-227 | exactly a resident whose client has gone loses its slot |
| Service.Backend.FillSlot | frontend/src/program_worker.rs:228-261 | a free slot stays free only when nothing is queued, and who is seated was the next in order of acceptance, not cancelled, with its position at the restored prefix |
| Service.Backend.Restore | frontend/src/program_worker.rs:255-260 | a restored prefix is short of the prompt and the slot's history equals it |
| Service.Backend.Probe | frontend/src/program_worker.rs:284-298 | what a slot offers to a batch: its next tokens at its position, with a sample exactly from the end of the prompt; it waits only if it needs more than is left |
| Service.Backend.PlanBatch | frontend/src/program_worker.rs:279-300 | the batch holds distinct residents' next tokens within the budget, in a fair rotation; collection ends after a full turn or at a resident too wide for what is left, whoever was met before and is not a member was skipped, and every skip was justified |
| Service.Backend.SubmitAndLand | frontend/src/program_worker.rs:301-314 | every member moves on by exactly its tokens, nobody else changes, and all histories are consistent again |
| Service.Backend.BatchTick | frontend/src/program_worker.rs:279-318 | the batched tick is fair, leaves out nobody its budget could have served, and its account of who moved by how much, in lawful forwards, and who was skipped is true |
| Service.Backend.AdmitAll | frontend/src/program_worker.rs:223-262 | from the top of an iteration to its tick only clients act, exactly the cancelled lose their slots and the next of the queue are seated; no stream gets an item |
| Service.Backend.Iterate | frontend/src/program_worker.rs:222-373 | a completed iteration leaves exactly one log entry, which begins and ends in the iteration's own worlds and slots and is true |
| Service.Backend.TryNotice | frontend/src/program_worker.rs:384-386 | the failure notice is delivered exactly if the receiver is there and has room at that moment |
| Service.Backend.Close | frontend/src/program_worker.rs:376-398 | whatever clients do meanwhile, everyone resident or queued gets one notice attempt and keeps what was sent, everyone else is left alone, and in the end nothing is queued, resident, registered or owned |
| Service.Backend.Run | frontend/src/program_worker.rs:204-398 | over a whole run: the log leads without a gap, up to client steps, from the start to the closing, everyone ready is served within `residents` entries of it, and the loop ends before its last turn only on a shutdown some client asked for, an engine error, or when nobody is resident and nobody is left to send; at the end nothing leaks, and each stream that was open at the closing was parted with, ended exactly if its notice had room |
| LostNotice.Lose | frontend/src/program_worker.rs:382-388 | a concrete run: 64 unread tokens, then shutdown; the client never left, and its stream does not end |
| SequenceBatch.Preflight | native/include/sequence_batch.h:26-39 | the limits and member checks pass exactly the acceptable submissions |
| SequenceBatch.Make | native/include/sequence_batch.h:23-59 | a layout is built exactly for acceptable submissions, and it is the packed one |
| SequenceBatch.PackIsLaid | native/include/sequence_batch.h:42-57 | each member's rows are its contiguous positions, with its ends, prior and key lengths |
| SequenceBatch.PackRoundTrip | native/include/sequence_batch.h:42-57 | the arrays determine the member list again |
| SequenceBatch.SampleRowsAreLast | native/include/sequence_batch.h:53-56 | there is one sampled row per sampling member, its last one |
| SequenceBatch.PackFits | native/include/sequence_batch.h:23-59 | every number of a layout that is built fits a signed 32-bit word |
| Attention.Validate | native/src/openpangu_attention_metadata.h:10-37 | passes exactly the accepted tables, and leaves the table exactly when the ends outgrow it before anything is found wrong |
| Attention.InsideIff | native/src/openpangu_attention_metadata.h:14-36 | for given ends some lengths and candidates take the check past the table if and only if the ends climb past the last one |
| Attention.FittingRowIsDense | native/src/openpangu_attention_metadata.h:22-34 | an accepted row whose causal length fits lists every causal position once, then padding |
| Attention.OneBlockPerRow | native/kernels/cache_quantization.cpp:77-84 | for any block count every row is written by exactly one block |
| Attention.Table.RunBlock | native/kernels/cache_quantization.cpp:77-84 | one block writes its own rows and leaves all others alone |
| Attention.Table.Launch | native/kernels/cache_quantization.cpp:70-91 | blocks run in any order leave every row its causal candidates and length |
| Attention.PackedTablesPass | native/src/openpangu_attention_metadata.h:10-37 | the candidates written for any packed batch pass the host check under that batch's ends and lengths |
| Quantization.UnpackField | native/kernels/cache_quantization.cpp:34-36 | for both widths unpacking a byte gives back the codes packed into it |
| Quantization.UnpackIsSigned | native/kernels/cache_quantization.cpp:49-53 | every byte, and every half of one, is read as the signed number that has its bits |
| Quantization.TiesGoOut | native/kernels/cache_quantization.cpp:30-32 | a quotient half way between two codes goes to the one farther from zero, on either side |
| Quantization.WithinLimit | native/kernels/cache_quantization.cpp:23-33 | no entry of a row is rounded out of its code range, so the clamp never changes a code |
| Quantization.HalfScale | native/kernels/cache_quantization.cpp:24-34 | every stored code fits its bits, and code times scale is within half a scale of the entry |
| Quantization.Cache.Quantize | native/kernels/cache_quantization.cpp:12-38 | a position inside the cache stores exactly this row's scale and bytes and no other row's; one outside stores nothing |
| Quantization.RowReturns | native/kernels/cache_quantization.cpp:12-57 | a stored row comes back entry by entry to within half its scale |
| Quantization.DequantizeRow | native/kernels/cache_quantization.cpp:45-56 | a row's outputs are the stored form of code times scale up to the last position and of zero behind it, whatever storing does to a product; no other output is written |
| Quantization.RestoredIsBack | native/kernels/cache_quantization.cpp:12-57 | what quantizing stored and dequantizing restored is back to within half a step of the row, for every entry |
| Quantization.Dequantize | native/kernels/cache_quantization.cpp:39-57 | for any number of blocks, with rows dealt to them in turn, run in any order: each cell of a stored row up to the last position holds what storing makes of a value off by at most one part in 254, or 14, of any bound of the row, and every cell behind it a stored zero |
| Quantization.WriteUndoesRead | native/kernels/cache_quantization.cpp:5-11 | storing what was read gives the same BF16 pattern |
| Quantization.SignKept | native/kernels/cache_quantization.cpp:8-11 | a finite value and its negation are stored as opposite BF16 values |
| Quantization.RoundsHalfToEven | native/kernels/cache_quantization.cpp:8-11 | for every finite non-negative value the stored BF16 is the nearest one, ties to even (section 4.3.1 of IEEE 754-2019) |
| BatchTrace.Validate | scripts/check-sequence-batch-trace.py:19-66 | the walk over the events accepts exactly the traces whose replay is in order and finishes every job |
| BatchTrace.AcceptedIff | scripts/check-sequence-batch-trace.py:19-66 | a trace is accepted if and only if its batches are in order, each member continues its job where the members before it left off, as wide as prompt and batch allow and sampling exactly from the end of the prompt, and each job ends with its prompt and all outputs but the last consumed and all outputs sampled |
| BatchDriver.BuildBatch | native/probes/program_engine_probe.cpp:180-190 | the batch takes all live slots in order until the budget is used, and is empty only when nobody is live |
| BatchDriver.MemberKeeps | native/probes/program_engine_probe.cpp:209-219 | the member a slot contributes passes the checker's tests and keeps slots and progress in step |
| BatchDriver.Drive | native/probes/program_engine_probe.cpp:161-222 | on any requests the driver stops, and the checker accepts its trace exactly when there was a request: each ends at prompt plus outputs minus one, fully sampled |
| TokenPlan.CountInputs | native/include/token_execution_plan.h:133-142 | a node passes exactly when its inputs precede it, and each input edge adds one use |
| TokenPlan.CheckNodes | native/include/token_execution_plan.h:122-159 | accepts exactly the topological node lists with sound descriptors and distinct names, with their edge counts |
| TokenPlan.CheckChain | native/include/token_execution_plan.h:163-177 | accepts exactly the chains whose links are ordinary or paired layout operators over their predecessor |
| TokenPlan.Sweep | native/include/token_execution_plan.h:179-182 | one reverse sweep finds exactly the nodes reachable from the output |
| TokenPlan.Read | native/include/token_execution_plan.h:116-186 | accepts exactly the plans with sound nodes, output and chain in which every node is reachable, and counts each node's uses plus one for the output |
| TokenPlan.EveryNodeUsed | native/include/token_execution_plan.h:178-184 | in an accepted plan no use count is zero |
| TokenPlan.DecimalReads | native/include/token_execution_plan.h:23-30 | what is read is the number that was written, whatever zeros are in front |
| TokenPlan.IntegerIff | native/include/token_execution_plan.h:23-30 | an attribute gives the number it spells up to twenty million, and text that is not all digits gives none |
| KernelContracts.FindRegion | native/include/ascend_token_contract.h:9-16 | the walk over slices ends and gives root and offset, or fails where an offset is missing |
| KernelContracts.ExclusiveRegion | native/include/ascend_token_contract.h:7-24 | true exactly when the root is fresh and neither the output nor any other reader, through any slices, overlaps the region (see `ExclusiveIff`) |
| KernelContracts.ExclusiveIff | native/include/ascend_token_contract.h:7-24 | column by column: a region is exclusive if and only if it belongs to a linear, norm, mla_value, copy or head_to_token value and shares no column with the output or any other reader, so disjoint views are admitted |
| KernelContracts.CheckRelay | native/include/ascend_token_contract.h:217-221 | true exactly when head-major storage is read once, by a layout operator, and is not the output |
| KernelContracts.Validate | native/include/ascend_token_contract.h:194-248 | accepts exactly the plans whose slices, in-place convolutions, head-major operators, strided head products and layout operators meet their contracts |
| KernelContracts.MatmulReadsInside | native/include/ascend_token_contract.h:222-233 | no rank, head, row or column of an accepted head product reads outside its input row or its weight |
| KernelContracts.MatmulBoundsExact | native/include/ascend_token_contract.h:231-233 | the two bounds hold if and only if every strided read of the product is inside |
| KernelContracts.GathersFollow | native/include/ascend_token_contract.h:212-221 | the contract of gather_heads is what row compaction needs |
| InPlace.WalkIsHome | native/include/ascend_token_contract.h:9-16 | with one token the region the check computes is where the value really lies, whatever operators run as views |
| InPlace.SharesStorage | native/src/token_dispatch.inc:152-165 | the convolution and whatever is run as a view lie on their input, a slice of one token lies from its start on, and everything else has a storage of its own |
| InPlace.SliceIsStretch | native/src/resident_tensor.h:109-117 | each column of a slice is the column that far behind its start in the input |
| InPlace.ClearIsDisjoint | native/include/ascend_token_contract.h:17-23 | with one token a value clear of an owner's region, not itself a view of the owner's result, shares no column with what is overwritten |
| InPlace.ReadIsUntouched | native/include/ascend_token_contract.h:19-23 | with one token nothing an operator reads is overwritten by a convolution before it, except the convolution's own result, and nothing an opaque value refers to ever is |
| InPlace.CopiesUntouched | native/include/ascend_token_contract.h:7-24 | with several tokens every copied slice on the way to a value the check found clear was taken from columns nobody had overwritten |
| InPlace.ReadIsIntact | native/include/ascend_token_contract.h:19-23 | in both modes whatever an operator reads, and whatever an opaque operand refers to, is as it was computed |
| InPlace.Device.RunNode | native/src/token_dispatch.inc:152-165 | after each node memory holds every column that was not overwritten, where its views and copies place it |
| InPlace.Device.Run | native/src/token_dispatch.inc:19-294 | for every validated plan, kernels, number of tokens and choice of views and references, the output read from shared memory is the one computed with a storage per value |
| CompactRows.PairIsRowwise | native/src/resident_head.h:16-31 | gather_heads followed by head_to_token works row by row |
| CompactRows.GatherAloneMovesRows | native/src/resident_head.h:16-31 | selecting rows between the two would pick others |
| CompactRows.ChainSelects | native/include/token_execution_plan.h:166-176 | at every chain node outside a layout pair the compact value is the selection of the full one |
| CompactRows.CompactOutputIsSelection | native/include/token_execution_plan.h:163-177 | running the chain on any selected rows of the source gives those rows of the full output |
| CompactRows.InteriorIsPrivate | native/include/token_execution_plan.h:163-177 | a chain's interior value is read once, by the next link, and by no node outside |
| Dispatch.Release | native/src/token_dispatch.inc:288-290 | each read is given back and a value is dropped exactly at its last one |
| Dispatch.Execute | native/src/token_dispatch.inc:19-294 | the loop never reads a dropped value, and returns the full output, or the requested rows of it, or fails exactly on a bad source extent or row |
| Dispatch.EmitRows | native/src/token_executor.h:1279-1303 | one token per request row from its own logits row, refused exactly when a row is missing |
| Dispatch.CompactionKeepsSamples | native/src/token_executor.h:1279-1303 | for every packed batch the k-th compact row is the full output's row of the k-th sampling member |
| SlidingWindow.AppendInBounds | native/include/sliding_window_layout.h:25-32 | every position of the context has a cell inside the recycled storage |
| SlidingWindow.Create | native/include/sliding_window_layout.h:11-23 | the constructor refuses exactly the arguments without a layout, and otherwise gives that layout |
| SlidingWindow.AppendIff | native/include/sliding_window_layout.h:30-33 | exactly the positions of the context have a cell |
| SlidingWindow.PhysicalPageIff | native/include/sliding_window_layout.h:25-29 | a logical page has a physical one if and only if some position of the context lies on it |
| SlidingWindow.AppendInjective | native/include/sliding_window_layout.h:30-33 | no two of any window plus chunk minus one consecutive positions share a cell |
| SlidingWindow.PageCountIsExact | native/include/sliding_window_layout.h:11-23 | that many pages suffice for every stretch of the context, and no fewer do |
| SlidingWindow.RingRefinesUnbounded | native/include/sliding_window_layout.h:9-33 | over every run of chunks written before their queries, each query reads at every position of its window the value written for it |
| PagedState.FindWindow | native/include/paged_state_contract.h:35-42 | a window is found exactly when all consumers of the cache agree on one |
| PagedState.WindowIff | native/include/paged_state_contract.h:35-42 | in terms of the graph: somebody who attends over the cache names the window, and everybody else does too, save for zeros before it is first named |
| PagedState.PagedStateContract | native/include/paged_state_contract.h:22-50 | a contract exists exactly in the cases the storage kinds allow, and is theirs |
| PagedState.ContractExistsIff | native/include/paged_state_contract.h:22-50 | within the header's bounds the contract exists exactly for a c8 cache, an index cache of pages of 64, and the two windowed caches whose window is found |
| PagedState.RingAlwaysBuilds | native/include/paged_state_contract.h:43-44 | within the header's bounds every window gives a legal ring no larger than the context's pages |
| PagedState.CapacityHolds | native/include/paged_state_contract.h:9-17 | the planned capacity is whole pages and holds every cell the cache can be asked to write |
| LoadPlan.ParameterBytes | native/src/initialization_plan.cpp:55-65 | gives the byte size exactly for shapes whose product stays within 64 bits |
| LoadPlan.Validate | native/src/initialization_plan.cpp:134-168 | accepts exactly the valid plans |
| LoadPlan.EveryParameterProduced | native/src/initialization_plan.cpp:150-154 | each parameter is produced by exactly one instruction, by counting |
| Loader.InsideSpan | native/src/initialization_plan.cpp:119-133 | every byte of a slice lies inside its source span |
| Loader.SpanIsTight | native/src/initialization_plan.cpp:119-133 | the span ends with the last byte of the slice |
| Loader.SpanIff | native/src/initialization_plan.cpp:119-133 | a slice has a span exactly if it is one stretch without a stride, or whole rows of whole elements that do not run into one another and end within 64 bits |
| Loader.FitsIff | native/src/initialization_plan.cpp:206-210 | a slice that has a span fits its file if and only if every byte it names is in the file |
| Loader.GatherIsStrided | native/src/initialization_plan.cpp:236-246 | row and column of the packed tensor are row and column of the file |
| Loader.GatherIsStretch | native/src/initialization_plan.cpp:230-231 | without rows the packed tensor is one stretch of the file |
| Loader.WideningShifts | native/src/initialization_plan.cpp:250-262 | each widened element is the source element's bits moved up by sixteen |
| Loader.FillStaging | native/src/initialization_plan.cpp:229-247 | a staged chunk equals that stretch of the direct gather; every read is obliged to lie inside the source span, and a refused read fails the chunk |
| Loader.Convert | native/src/initialization_plan.cpp:250-261 | a chunk is widened exactly when all its elements are finite |
| Loader.FiniteAtIff | native/src/initialization_plan.cpp:254-259 | an element is finite exactly if its eight exponent bits are not all ones |
| Loader.LoadTensor | native/src/initialization_plan.cpp:223-272 | for every legal staging size a loaded tensor equals the direct gather, widened if need be, whatever may be refused; only a device that silently garbles uploads needs upload verification for that |
| LoadRun.ReleaseAll | native/src/initialization_plan.cpp:183-186 | every allocation held is released once and the device is as before |
| LoadRun.ResidentIsTotal | native/src/initialization_plan.cpp:273-275 | the sizes added in plan order come to the total checked against the budget |
| LoadRun.FilesOkIff | native/src/initialization_plan.cpp:206-210 | the files of a valid plan are in order if and only if every byte it names is there |
| LoadRun.Execute | native/src/initialization_plan.cpp:192-278 | either every parameter is published equal to its gather, with the pre-checked total and nothing else allocated, or the device is untouched, whichever read, allocation or upload is refused and with verification off (a device that silently garbles uploads needs it on); where nothing is refused, and no garbling found, success is exactly plan, files and values being in order |
| FrozenArena.Read | native/include/frozen_arena.h:55-86 | accepts exactly the texts of legal pooled layouts for this program and backend, and returns what they say |
| FrozenArena.LegalMeans | native/include/frozen_arena.h:55-86 | legal is exactly: aligned, non-empty slots apart from one another that fill the arena to its end, and rows of different instructions, each for the workspace or for something another slot holds |
| ArenaBinder.CheckAudit | scripts/bind-prepared-arena.py:55-80 | passes exactly the audits whose workspace is the first slot, in the planned size and leased by all its users, or absent, and whose numbered slots are aligned, apart, not empty and fill the arena |
| ArenaBinder.Bind | scripts/bind-prepared-arena.py:55-97 | refuses exactly the audits that do not pass; otherwise the layout written out has the audit's slots, one envelope an observed instruction, in ascending order |
| ArenaBinder.LegalIff | scripts/bind-prepared-arena.py:22-33 | a bound audit is legal to the reader exactly within its limits |
| ArenaBinder.BindAndRead | scripts/bind-prepared-arena.py:55-97 | reading the text of a bound audit gives the same slots and envelopes back exactly within those limits |
| ArenaBinder.ObservedStaysPermitted | native/include/frozen_arena.h:32-46 | every lease observed during preparation stays permitted under the envelopes |
| ArenaBinder.RequestPermittedIff | native/include/frozen_arena.h:40-46 | a request is permitted if and only if some slot the instruction was observed to lease, other than the workspace, holds it |
| ArenaBinder.SlotPermittedIff | native/include/frozen_arena.h:32-39 | a slot is permitted exactly to an instruction observed to lease one, the workspace to one observed to lease that |
| ArenaBinder.WorkspacePermittedIff | native/include/frozen_arena.h:44-44 | the workspace as such is permitted exactly to the instruction observed to lease it before all others, in its exact size |
| ArenaPool.TakeBounded | native/include/bounded_buffers.h:10-24 | takes from the smallest bin with an eligible block the one freed last, and fails exactly when none is eligible |
| ArenaPool.TakeKeeps | native/include/bounded_buffers.h:14-21 | a take moves one block from its bin to the leases and keeps the partition |
| ArenaPool.LeasesDisjoint | native/include/frozen_arena.h:60-67 | live leases never share a byte and lie in the arena |
| ArenaPool.IdleServes | native/include/frozen_arena.h:40-46 | on an idle arena some waiting block does for every permitted request |
| ArenaPool.Pool.Acquire | native/src/prepared_execution.h:189-230 | a lease is sufficient and permitted, chosen by the rule of its mode, never the workspace in bounded mode, and taken out of its bin with every other block left in place, or refused without change; on an idle arena every permitted request is served |
| ArenaPool.Pool.Release | native/src/prepared_execution.h:231-238 | exactly live leases can be given back, to the top of their bin, every other block staying in place |
| ArenaPool.Open | native/src/prepared_execution.h:139-161 | a new context leases its planned workspace, the first slot, and nothing else |
| SampledTable.NotThere | native/probes/sampled_allocations.h:37-41 | a probe that ends at a never-used slot, or has seen them all, has not missed the key |
| SampledTable.StoreKeeps | native/probes/sampled_allocations.h:53-59 | reusing a tombstone or taking a free slot adds one entry and hides none |
| SampledTable.EraseKeeps | native/probes/sampled_allocations.h:37-41 | a tombstone removes one entry and keeps every other reachable |
| SampledTable.FullIff | native/probes/sampled_allocations.h:20-60 | a shard is full exactly when it holds 2048 samples, whatever tombstones there were |
| SampledTable.Shard.Record | native/probes/sampled_allocations.h:44-62 | a sample is dropped exactly when its shard has neither empty slot nor tombstone, and otherwise goes to the first such slot on its way |
| SampledTable.Table.Record | native/probes/sampled_allocations.h:44-62 | the table is a map with one more entry, or unchanged and one more drop |
| SampledTable.Table.Forget | native/probes/sampled_allocations.h:33-43 | exactly this pointer and kind is gone |
| SampledTable.Table.Realloc | native/probes/sampled_allocations.h:95-109 | success or freeing forgets the old address and records the new one if sampled, dropped exactly for lack of room after that; failure changes nothing |
| SampledTable.Table.Snapshot | native/probes/sampled_allocations.h:65-90 | lists exactly the live samples, each once |

## Left out

- Device calls (ACL, ACLNN, HCCL), streams, graph capture and kernel arithmetic: operators are uninterpreted functions, row by row where the source says so.
- Text and byte decoding of plans, arenas and traces: the models start from decoded fields, so a number is a number; blanks, signs and wrapped unsigned text are not modelled.
- The header of a token plan with its prefill family, and the kernel contracts of operators that neither view, overwrite nor relay storage: they only compare constants.
- 32-bit wrap-around of a slice offset sum inside `exclusive_region`: it needs slices that the same validation rejects.
- Contents of the prefix cache: a restore hands back some length and the engine state of that prefix, or fails; publication of checkpoints touches no scheduler state.
- Sampling parameters other than greedy with stop tokens, end token and token limit; the health flag, logging, sleeping and request ids' format.
- `run`'s first check of its capacities, and lost wake-ups or memory ordering: flags are monotone and shared accesses atomic.
- Releases of the rollback in `Service.Backend` are the engine's own: a failed release ends the run, as in the source.
- InPlace.Device.Run: `expert_gmm`, which also writes into its second operand, is a kernel with a storage of its own; its contract gives that operand no other reader.
- InPlace.Pure: a slice of `sink_normalize`, whose result has one row for any number of tokens, is the slice of that row; the executor refuses it for several tokens.
- InPlace.Memory, a map from nodes to storage: storage reuse after a value's last use belongs to the allocator and is not part of this model; `Dispatch` counts the uses.
- SampledTable.Table.Record: which allocations are sampled is an argument; the countdown and the stack trace are not modelled.
- KernelContracts.Validate: the contracts of all other operators, which compare kinds, widths and attributes with constants, are not modelled.
- ArenaBinder.CheckAudit: the fingerprints, formats, growth and replay counts of an audit, which are compared with constants, are not modelled.
- FrozenArena.Read: the older text form with slot bindings is not modelled; only probes write it.
- Attention.Validate: integers are unbounded, so overflow of a causal length is not modelled.
- The tensor-parallel gather layout of linear operators, the capture barrier and the interval sweeps of the profile scripts: smaller pieces of their own.
- Quantization.HalfScale: exact arithmetic, so the rounding of the device's divisions and products is not modelled.
- Quantization.DequantizeRow: what storing makes of a product, its FP32 and BF16 rounding, is a parameter; the BF16 half is the subject of `RoundsHalfToEven`.
