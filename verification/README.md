# Repercep in Dafny

A model of the parts of Repercep that carry state or arithmetic worth proving, with the proofs.
`dafny verify dfyconfig.toml` checks all of it.

## What is modelled

**Attention kernels.** `AmxBf16` and `AmxInt8` are the two AMX kernels, written as the loops they are:
packing into pair or quad layouts, tile loads and stores by address and stride, the two tile
multiply instructions (`Amx.TileDpBf16`, `AmxInt8Tiles.TileDpBssd`, following the TDPBF16PS and TDPBSSD
entries of the Intel 64 and IA-32 Software Developer's Manual, volume 2), the streaming softmax over
32-key tiles with its causal early exit and mask shortcut, and the parallel loop over (batch, head,
query tile). `Fp8Triton` and `Fp8TritonLaunch` are the Triton kernel with arbitrary strides and block
sizes, its masked loads and stores, the launch grid, and the wrapper with its per-slab quantization.
All of them are proved against one reference, `DirectAttention.AttentionElement`: over the flat tensors,
the softmax-weighted average of the values of the keys a query sees (the first s + 1 for a causal query at
position s, otherwise all), with no tile, no mask and no function of the kernels in it. The kernels' own
reference on masked rows, `Attention.AttentionAt`, is proved equal to it. The BF16 and FP8 kernels meet it
exactly over the reals, for every schedule of the parallel loop, every block size and every program
order. The INT8 kernel meets it within a stated error. Storage is `array<real>` or `array<int>`;
minus infinity is a constructor; the exponential is any function with E(0) = 1, E > 0,
E(a + b) = E(a) E(b) and E(a) <= 1 for a <= 0 (`Softmax.Exponential`).

**Scheduler.** `Scheduler` is the class with its three buckets, tombstones and known ids.
`SchedulerQueue` and `SchedulerRuns` compare it with one stable priority queue, call by call and over
whole runs; `SchedulerKnown` says when the scheduler forgets an id. `SchedulerWakeup` interleaves the
steps of one consumer in `next` with any number of threads in `submit`, `cancel` and `shutdown`; the
notifier is one permit, a count of `notify_waiters` calls and at most one registered waiter.
`SchedulerLinear` proves the interleaved scheduler linearisable: its queue and answers are those of the
atomic calls in the order of their locked sections.

**Router.** `Router` is the class with its entry map and the three phases of `push_frame`; a channel is
a bounded FIFO with close, named by an id, and keeps the history of what was sent and received.
`RouterRuns` has each call atomic; `RouterConcurrent` lets other calls in between phases, under
the callers' rule of one producer per request, starting after `accept` has returned. `RouterView` is a
reference of one request as its callers see it, with no table and no channels, advanced by what callers
do; `RouterAnswers` proves every answer of every atomic run by it, and `RouterHistory` every interleaving.

**Latent cache and action tokens.** `LatentCache` is the paged cache with its eviction scan in 64-bit
wrapping arithmetic, `LatentCacheRuns` its runs, `LatentCacheHistory` what each page says about the
operations before. `ActionTokens` is the action (de)tokenizer.

## Findings

Where the code does less than its documentation says, the code is modelled, a lemma gives a run or an
input that shows it, and another lemma says exactly when the documented behaviour holds.

- Resubmitting a cancelled id at a higher priority hands the consumer the cancelled request and
  discards the new one (`SchedulerRuns.ResubmissionRevivesCancelled`). `submit` is a stable priority
  insert if and only if the new request is not swallowed in this way (`SchedulerQueue.SubmitInserts`).
- `cancel` promises NotFound only for ids that are not queued. With several copies of an id queued, a
  call of `next` that returns or drops one of them forgets the id while another copy waits
  (`SchedulerKnown.DuplicateCannotBeCancelled`, `SchedulerKnown.DroppedCopyCannotBeCancelled`). One call
  of `next` keeps every queued id known if and only if no id that leaves has a copy behind it
  (`SchedulerKnown.NextKeepsKnownIff`); over runs, the promise holds for an id if and only if no such
  call has forgotten it since its last accepted submission (`SchedulerKnown.NotFoundAsDocumentedIff`),
  and never fails if accepted ids are fresh (`SchedulerKnown.FreshForgetsNothing`).
- A request can be accepted after `next` has returned None, if and only if its submitter had passed
  the shutdown check before (`SchedulerWakeup.StrandedIff`).
- The router's comment says terminal states do not transition further. With calls interleaved,
  Cancelled can be left in exactly two ways (`RouterConcurrent.CancelledIsLeftIff`): to Complete, if and
  only if a final push validated before the cancel can still take effect
  (`RouterConcurrent.CancelThenComplete`), and out of the table, if and only if the accept that
  registered the request can still be refused and rolled back (`RouterConcurrent.CancelThenRollback`).
- Backpressure asks the caller to back off, but the refused push has consumed its frame index. A failed
  push leaves the router as it was, and can be repeated with the same answer, if and only if it failed
  in phase 1 (`RouterRuns.FailedPushIsHarmlessIff`); otherwise no run, atomic or interleaved, lets a
  frame of that index through again (`RouterRuns.RefusedIndexIsConsumed`,
  `RouterConcurrent.IndexIsConsumed`).
- The eviction scan's 64-bit frame distances wrap around in a release build, unlike the Python it
  mirrors. The victim is the oldest unpinned page if and only if the distances of the unpinned pages all
  overflow or none does (`LatentCacheRuns.EvictsOldestIff`, `LatentCacheRuns.WrapEvictsNewer`).
- An integer token survives decoding and encoding if and only if it is a valid token of a proper range,
  or the one token every action of a degenerate range encodes to (`ActionTokens.TokenRoundTripIff`).

## Model

| member | source | states |
|---|---|---|
| Packing.PackK | kernels/cpu/amx_attn/flash_attn_amx.cpp:270-297 | after packing K, every slot holds the two consecutive head-dim lanes its (slab, pair, key) address names; all accesses in bounds |
| Packing.PackV | kernels/cpu/amx_attn/flash_attn_amx.cpp:311-339 | after packing V, every slot holds the same lane of two consecutive key rows; all accesses in bounds |
| Packing.PairsApart | kernels/cpu/amx_attn/flash_attn_amx.cpp:288-290 | slots of different (slab, pair, column) never overlap |
| Amx.TileStore | kernels/cpu/amx_attn/flash_attn_amx.cpp:462-464 | a tile store writes exactly its 16 strided row pieces and nothing between them |
| Amx.PairStepsExtendDot | kernels/cpu/amx_attn/flash_attn_amx.cpp:456-458 | one lane of the pair dot-product instruction on pair-packed operands extends a partial dot product by the next 32 terms, for any start |
| Amx.PairStepsAddProducts | kernels/cpu/amx_attn/flash_attn_amx.cpp:594-596 | on row-packed V it adds the plain sum of products of a row of P and a column of V |
| AmxBf16.ScoreBlock | kernels/cpu/amx_attn/flash_attn_amx.cpp:440-459 | a 16x16 score tile accumulated over D/32 chunks is the full dot product Q[i].K[j] at the right slab and key |
| AmxBf16.ScoreTile | kernels/cpu/amx_attn/flash_attn_amx.cpp:438-467 | the four stored blocks make scratch hold every dot product of the 32 query rows and the 32 keys from k_start, in the striped order |
| AmxBf16.AddTile | kernels/cpu/amx_attn/flash_attn_amx.cpp:579-604 | every accumulator element grows by exactly the sum over the 32 keys of P[i,n] V[k_start+n,d]; in bounds |
| AmxBf16.GatheredTilesAreRows | kernels/cpu/amx_attn/flash_attn_amx.cpp:417-511 | the gathered, scaled and masked tile is the matching piece of each query's full score row, also when the needs_mask shortcut skips masking |
| AmxBf16.RowsMaskedPastTile | kernels/cpu/amx_attn/flash_attn_amx.cpp:417-421 | at the causal break every remaining key of every row is masked |
| FlashTile.SoftmaxRow | kernels/cpu/amx_attn/flash_attn_amx.cpp:513-540 | one row's update of maximum, sum, weights and accumulator is the reference step on that row, other rows untouched |
| FlashTile.SoftmaxTile | kernels/cpu/amx_attn/flash_attn_amx.cpp:479-541 | the same for all 32 rows, each from its own old values |
| Softmax.StreamStatistics | kernels/cpu/amx_attn/flash_attn_amx.cpp:513-531 | a step from the statistics of the first n scores gives those of n plus a tile: running maximum of the allowed scores and sum of E(s - max) |
| Softmax.StreamAccumulator | kernels/cpu/amx_attn/flash_attn_amx.cpp:533-540 | rescaling by alpha and adding the tile's products keeps the accumulator equal to the direct weighted sum |
| Softmax.SkipMasked | kernels/cpu/amx_attn/flash_attn_amx.cpp:419-421 | fully masked keys change neither the sum nor the weighted sum, which is what permits the early exit |
| Softmax.StreamSumAtLeastOne | kernels/cpu/amx_attn/flash_attn_amx.cpp:530-531 | once a key is allowed the row sum is at least 1 |
| Softmax.StreamEnd | kernels/cpu/amx_attn/flash_attn_amx.cpp:610-617 | accumulator over row sum at the end is the direct softmax average |
| Softmax.StepWeightsInUnit | kernels/cpu/amx_attn/flash_attn_amx.cpp:517-522 | weights lie in [0,1] and the rescale factor in [0,1] |
| FlashTile.MaximaFinite | kernels/cpu/amx_attn/flash_attn_amx.cpp:516 | from the first tile on no row's maximum is minus infinity |
| FlashTile.StatsStep | kernels/cpu/amx_attn/flash_attn_amx.cpp:479-531 | one tile advances the statistics of all 32 rows |
| FlashTile.StatsSkip | kernels/cpu/amx_attn/flash_attn_amx.cpp:419-421 | after the break the statistics are those of the whole row |
| FlashTile.StoreOutput | kernels/cpu/amx_attn/flash_attn_amx.cpp:610-622 | the final pass stores the normalised accumulator in exactly the 32 output rows of the tile |
| AmxBf16.StreamTiles | kernels/cpu/amx_attn/flash_attn_amx.cpp:411-605 | the key loop with break and mask shortcut ends with maximum, sum and accumulator of every full masked row |
| AmxBf16.ProcessQTile | kernels/cpu/amx_attn/flash_attn_amx.cpp:363-623 | the 32 rows of the tile become softmax attention; no other output element changes |
| AmxBf16.RunIteration | kernels/cpu/amx_attn/flash_attn_amx.cpp:684-697 | one (b, h, q_tile) iteration achieves its rows and keeps those of every iteration already run |
| AmxBf16.FlashAttention | kernels/cpu/amx_attn/flash_attn_amx.cpp:631-710 | for every schedule of the parallel loop every output element (b, h, s, d) is the softmax average, written out over the tensors, of the values of keys 0..s if causal and of all keys otherwise; exactly head dims 64 and 128 and positive multiples of 32 keys are accepted |
| FlashTile.SlicesPartitionOutput | kernels/cpu/amx_attn/flash_attn_amx.cpp:681-697 | every output index lies in the slice of exactly one iteration |
| FlashTile.IterationsApart | kernels/cpu/amx_attn/flash_attn_amx.cpp:681-697 | rows of different iterations are different |
| FlashTile.OtherIterationKept | kernels/cpu/amx_attn/flash_attn_amx.cpp:678-700 | an iteration leaves the results of all others alone, which justifies running them in parallel |
| Attention.KeyZeroAllowed | kernels/cpu/amx_attn/flash_attn_amx.cpp:490-492 | key 0 is never masked, so every softmax row is well defined |
| DirectAttention.AttendSeesVisible | kernels/cpu/amx_attn/flash_attn_amx.cpp:490-505 | masked attention is attention over exactly the keys a query sees, unmasked: the first pos + 1, its own included, when causal, and all of them otherwise |
| DirectAttention.AttendIsAverage | kernels/cpu/amx_attn/flash_attn_amx.cpp:610-617 | attention over unmasked scores is the average of the values weighted by the exponentials of the scores |
| DirectAttention.AttentionAtIsElement | kernels/cpu/amx_attn/flash_attn_amx.cpp:631-710 | the reference the tiles are proved against is, element by element of the tensors, sum of E(q.k * scale) v over sum of E(q.k * scale) over the visible keys |
| Rounding.RoundWithin | kernels/cpu/amx_int8_attn/flash_attn_amx_int8.cpp:333-336 | rounding half to even never leaves an interval with integer ends |
| Quantization.QuantizeError | kernels/cpu/amx_int8_attn/flash_attn_amx_int8.cpp:315-338 | a value bounded by absmax quantizes to a lane in [-127,127] that dequantizes within absmax/254 and never beyond absmax, zero rows included |
| Quantization.DotError | kernels/cpu/amx_int8_attn/flash_attn_amx_int8.cpp:577-585 | dot products of n dequantized lanes are within n times the lane error of the true ones |
| Quantization.ScalesFactorOut | kernels/cpu/amx_int8_attn/flash_attn_amx_int8.cpp:601-606 | scaling the integer dot product once equals the dot product of dequantized values |
| AmxInt8Quant.QuantizeRows | kernels/cpu/amx_int8_attn/flash_attn_amx_int8.cpp:297-340 | every row gets its own scale and the lanes the quantization of its values, in place |
| AmxInt8Quant.QuantizeTile | kernels/cpu/amx_int8_attn/flash_attn_amx_int8.cpp:511-541 | the V tile gets one shared scale from its maximum and the matching lanes |
| AmxInt8Quant.RowApproximates | kernels/cpu/amx_int8_attn/flash_attn_amx_int8.cpp:315-338 | each quantized row approximates its source within half a step |
| AmxInt8Tiles.QuadStepsExtendDot | kernels/cpu/amx_int8_attn/flash_attn_amx_int8.cpp:589-591 | the signed byte dot-product instruction, with its 32-bit wrap-around, extends an exact integer dot product by the next 64 terms |
| AmxInt8Tiles.ScoreFitsFloat | kernels/cpu/amx_int8_attn/flash_attn_amx_int8.cpp:573-621 | with lanes in [-127,127] and up to 128 terms every partial sum is at most 2064512 in magnitude: 32 bits never wrap and the value is below 2^24 |
| AmxInt8Tiles.PackRowQuads | kernels/cpu/amx_int8_attn/flash_attn_amx_int8.cpp:553-561 | K packing: every slot holds the four consecutive lanes of its key |
| AmxInt8Tiles.PackColumnQuads | kernels/cpu/amx_int8_attn/flash_attn_amx_int8.cpp:386-401 | V packing: every slot holds the same lane of four consecutive rows |
| AmxInt8.IntProduct | kernels/cpu/amx_int8_attn/flash_attn_amx_int8.cpp:573-599 | striping over two row halves, column blocks and 64-lane chunks gives every exact integer dot product |
| AmxInt8.PaddingIsNeutral | kernels/cpu/amx_int8_attn/flash_attn_amx_int8.cpp:716-745 | zero padding from 32 to 64 lanes leaves the dot product unchanged |
| AmxInt8.ValueProduct | kernels/cpu/amx_int8_attn/flash_attn_amx_int8.cpp:680-755 | the padded P/V path yields exactly the sum over 32 keys of P_i8[i,n] V_i8[n,d] |
| AmxInt8.ScoreError | kernels/cpu/amx_int8_attn/flash_attn_amx_int8.cpp:573-627 | the dequantized score is within dim * absmax(q) * absmax(k) / 127 of the true dot product |
| AmxInt8.TileProductError | kernels/cpu/amx_int8_attn/flash_attn_amx_int8.cpp:680-761 | one tile's dequantized P V is within 32 lane errors of the exact product of weights and values |
| AmxInt8.AddTile | kernels/cpu/amx_int8_attn/flash_attn_amx_int8.cpp:680-761 | the accumulator moves by the exact product up to that error |
| AmxInt8.NearStep | kernels/cpu/amx_int8_attn/flash_attn_amx_int8.cpp:611-761 | the accumulated error grows only with the number of keys, because rescale factors are at most 1 |
| AmxInt8.ProcessQTile | kernels/cpu/amx_int8_attn/flash_attn_amx_int8.cpp:421-780 | every finished element is within keys * max abs V / 127 of exact softmax over the dequantized scores |
| AmxInt8.NormalisedError | kernels/cpu/amx_int8_attn/flash_attn_amx_int8.cpp:767-779 | dividing by a row sum of at least 1 does not enlarge the error |
| SoftmaxError.AttendMoves | kernels/cpu/amx_int8_attn/flash_attn_amx_int8.cpp:611-673 | if every score moves by at most eps, attention moves by at most (E(2 eps) - 1) * max abs V |
| AmxInt8EndToEnd.DequantizedAttentionError | kernels/cpu/amx_int8_attn/flash_attn_amx_int8.cpp:601-673 | hence attention over dequantized scores is that close to true attention |
| AmxInt8EndToEnd.NearIsWithin | kernels/cpu/amx_int8_attn/flash_attn_amx_int8.cpp:635-761 | from the maxima the kernel takes to any bounds on the rows and slabs: an element near by the former is within both written-out bounds of direct attention over the visible keys |
| AmxInt8EndToEnd.FlashAttention | kernels/cpu/amx_int8_attn/flash_attn_amx_int8.cpp:788-862 | for every schedule, and any bounds qm, km, vm on the magnitudes of its query row, keys and values, every output element is within keys * vm / 127 of the softmax average over the quantised scores of the visible keys, and within (E(2 shift) - 1) * vm more of true attention, shift = abs(scale) * dim * qm * km / 127; the accepted shapes are those of the BF16 kernel |
| Fp8Triton.Program.StepKept | kernels/triton_kernels/fp8_flash_attn.py:242-293 | one key block, partial tail and causal mask included, advances all rows' statistics and accumulators |
| Fp8Triton.Program.MaximumFinite | kernels/triton_kernels/fp8_flash_attn.py:268-270 | for a real query row the new maximum is finite from the first block on |
| Fp8Triton.Program.EndOfRow | kernels/triton_kernels/fp8_flash_attn.py:295-296 | dividing by the row sum gives direct attention, padding keys contributing nothing |
| Fp8Triton.RangeScaleCancels | kernels/triton_kernels/fp8_flash_attn.py:283-289 | the fixed range factor on P cancels against the folded V scale |
| Fp8Triton.PrefixSums | kernels/triton_kernels/fp8_flash_attn.py:264-266 | masked out-of-range keys do not contribute |
| Fp8TritonLaunch.ComputeBlock | kernels/triton_kernels/fp8_flash_attn.py:207-296 | one program computes direct attention for each of its rows inside the tensor |
| Fp8TritonLaunch.RunProgram | kernels/triton_kernels/fp8_flash_attn.py:207-304 | it stores those values at its own rows, nothing past the last row, and changes no other element |
| Fp8TritonLaunch.RowOwnedOnce | kernels/triton_kernels/fp8_flash_attn.py:207-225 | each output row belongs to exactly one program of the grid |
| Fp8TritonLaunch.RunGrid | kernels/triton_kernels/fp8_flash_attn.py:457-509 | for every block size and order of programs, any strided output layout without aliasing ends with direct attention at every element |
| Fp8TritonLaunch.Launch.FoldedScales | kernels/triton_kernels/fp8_flash_attn.py:237-240 | folding both dequantization scales into the temperature equals attention over the dequantized tensors |
| Fp8TritonLaunch.ScaleIsLeast | kernels/triton_kernels/fp8_flash_attn.py:338-349 | each (batch, head) scale is positive and the least under which that slab, and the floor 1e-6, fit in 95% of the FP8 range |
| Fp8TritonLaunch.QuantizeRoundTrip | kernels/triton_kernels/fp8_flash_attn.py:352-361 | the clamp never acts: dequantizing gives back every value of the slab |
| Fp8TritonLaunch.ExpectedIsAttention | kernels/triton_kernels/fp8_flash_attn.py:436-447 | attention over the quantized and dequantized operands is attention over the inputs |
| Fp8TritonLaunch.FlashAttention | kernels/triton_kernels/fp8_flash_attn.py:393-547 | whatever tile sizes the autotuner picks and in whatever order programs run, every element is the direct softmax average over the visible keys (offs_m >= offs_n when causal) |
| Scheduler.PopFromIsHead | crates/repercep-scheduler/src/lib.rs:156-170 | popping takes the first live request and never uses up a tombstone of something still queued |
| Scheduler.PopFromConserves | crates/repercep-scheduler/src/lib.rs:156-170 | popping only removes: the item returned and cancelled ones dropped |
| Scheduler.PopNextIsPopFrom | crates/repercep-scheduler/src/lib.rs:156-171 | the three buckets popped high to low behave as one queue |
| Scheduler.PopNextIsHead | crates/repercep-scheduler/src/lib.rs:156-171 | it returns the head of the pending queue and keeps the rest; with nothing pending every bucket and both sets end empty |
| Scheduler.LengthIsPending | crates/repercep-scheduler/src/lib.rs:147-154 | the saturating subtraction never saturates: len is the number of requests a drain returns |
| Scheduler.EnqueueKeepsInv | crates/repercep-scheduler/src/lib.rs:222-235 | accepting below capacity keeps tombstones within known within queued ids, adds exactly one live request and stays within capacity |
| Scheduler.TombstoneKeepsInv | crates/repercep-scheduler/src/lib.rs:285-290 | cancelling keeps the same and takes one live request away, or none if already cancelled |
| Scheduler.Scheduler.Length | crates/repercep-scheduler/src/lib.rs:295-297 | the reported length is the length of the pending queue |
| Scheduler.Scheduler.Submit | crates/repercep-scheduler/src/lib.rs:214-241 | ShuttingDown, QueueFull exactly at capacity live requests, or accepted at the back of its bucket; rejections change nothing |
| Scheduler.Scheduler.PopBucket | crates/repercep-scheduler/src/lib.rs:160-168 | the inner loop pops one bucket up to its first live item and clears the tombstones it passes |
| Scheduler.Scheduler.PopNextItem | crates/repercep-scheduler/src/lib.rs:156-171 | pop_next over the three fields |
| Scheduler.Scheduler.PollNext | crates/repercep-scheduler/src/lib.rs:246-272 | the locked section of next: the pending head, or end only when shut down with nothing pending, or wait |
| Scheduler.Scheduler.Cancel | crates/repercep-scheduler/src/lib.rs:277-292 | ShuttingDown, NotFound exactly for unknown ids, or one tombstone |
| Scheduler.Scheduler.Shutdown | crates/repercep-scheduler/src/lib.rs:312-320 | sets the flag and leaves the queue alone |
| SchedulerQueue.SubmitInserts | crates/repercep-scheduler/src/lib.rs:222-235 | submit is a stable priority insert into the pending queue if and only if the request is not swallowed |
| SchedulerQueue.SwallowedRevives | crates/repercep-scheduler/src/lib.rs:156-170 | a swallowed submission makes a cancelled lower-priority copy pending instead |
| SchedulerQueue.CancelRemoves | crates/repercep-scheduler/src/lib.rs:285-290 | a new tombstone removes the first pending copy of the id; a repeated cancel changes nothing |
| SchedulerQueue.CancelErases | crates/repercep-scheduler/src/lib.rs:274-292 | after a successful cancel the id is gone from the pending queue if and only if at most one copy was queued |
| SchedulerQueue.PendingCopies | crates/repercep-scheduler/src/lib.rs:147-171 | per id, a drain returns the copies queued less one if cancelled |
| SchedulerQueue.RunKeepsValid | crates/repercep-scheduler/src/lib.rs:132-171 | over every run, duplicates included: capacity holds, len is exact, no tombstone outlives its item |
| SchedulerQueue.DrainReturnsPending | crates/repercep-scheduler/src/lib.rs:243-272 | len + 1 calls of next return every pending request in order, then the end, and empty the scheduler |
| SchedulerRuns.InsertIsStable | crates/repercep-scheduler/src/lib.rs:44-46 | the reference queue stays ordered by priority and first-in first-out within each |
| SchedulerRuns.StepRefines | crates/repercep-scheduler/src/lib.rs:214-320 | under the caller's rule each call acts and replies as the one-queue specification |
| SchedulerRuns.RunRefines | crates/repercep-scheduler/src/lib.rs:214-320 | so does every run in which an accepted id was not known |
| SchedulerRuns.FreshRunsRefine | crates/repercep-scheduler/src/lib.rs:193-320 | in particular every such run of a new scheduler |
| SchedulerRuns.NotReturnedUntilResubmitted | crates/repercep-scheduler/src/lib.rs:274-292 | an id with no pending copy is not returned by any run until it is submitted again |
| SchedulerRuns.RunConserves | crates/repercep-scheduler/src/lib.rs:156-241 | over every run accepted = returned + dropped as cancelled + still queued, as multisets |
| SchedulerRuns.ResubmissionRevivesCancelled | crates/repercep-scheduler/src/lib.rs:156-170 | the run in which next returns a cancelled request and drops its replacement |
| SchedulerKnown.NextTakesLeaving | crates/repercep-scheduler/src/lib.rs:156-170 | next splits the queue into what leaves, the dropped copies and the returned request, and what stays, and forgets exactly the ids that leave |
| SchedulerKnown.NextKeepsKnownIff | crates/repercep-scheduler/src/lib.rs:142-170 | every queued id stays known across next if and only if no leaving id has another copy behind it |
| SchedulerKnown.RunForgets | crates/repercep-scheduler/src/lib.rs:142-170 | over every run, an id is queued but unknown at the end exactly if, since its last accepted submission, the last next that took a copy of it left another behind, or it was so at the start and nothing touched it |
| SchedulerKnown.NotFoundAsDocumentedIff | crates/repercep-scheduler/src/lib.rs:274-292 | after any run, cancel answers NotFound exactly for ids not queued if and only if the id is not forgotten; a forgotten id still has every queued copy pending |
| SchedulerKnown.FreshForgetsNothing | crates/repercep-scheduler/src/lib.rs:274-292 | if accepted ids are fresh nothing is ever forgotten |
| SchedulerKnown.DuplicateCannotBeCancelled | crates/repercep-scheduler/src/lib.rs:274-292 | a run in which cancel answers NotFound for a pending id after its first copy was returned |
| SchedulerKnown.DroppedCopyCannotBeCancelled | crates/repercep-scheduler/src/lib.rs:274-292 | a run in which it does so after a cancelled copy was only skipped |
| SchedulerWakeup.NoLostWakeup | crates/repercep-scheduler/src/lib.rs:246-272 | over every interleaving a parked consumer with a pending request has a submitter between push and notify_one; parked with the flag set, a shutdown before its notify_waiters; with no call in progress, nothing to do |
| SchedulerWakeup.WakeupDelivers | crates/repercep-scheduler/src/lib.rs:235-241 | that submitter's notify_one wakes the consumer, whose next pass returns the pending head |
| SchedulerWakeup.AnswersAreRight | crates/repercep-scheduler/src/lib.rs:254-268 | next answers None only with the queue empty and the flag set under the lock, otherwise the pending head |
| SchedulerWakeup.ActionSafe | crates/repercep-scheduler/src/lib.rs:214-320 | every step of the consumer, submitters, cancels and shutdowns keeps the wakeup invariant, a dropped future included; what each locked step does to the queue is SchedulerLinear.LockedSection |
| SchedulerWakeup.SubmitSafe | crates/repercep-scheduler/src/lib.rs:218-235 | so does a push |
| SchedulerWakeup.NotifySafe | crates/repercep-scheduler/src/lib.rs:235-320 | notify_one and notify_waiters leave no consumer parked |
| SchedulerWakeup.StrandedIff | crates/repercep-scheduler/src/lib.rs:214-235 | shut down and empty, the queue can still receive a request if and only if a submitter is past its flag check |
| SchedulerWakeup.StrandedExample | crates/repercep-scheduler/src/lib.rs:214-268 | a run in which a request is accepted after None was returned |
| SchedulerLinear.LockedSection | crates/repercep-scheduler/src/lib.rs:222-292 | a locked step does to the queue exactly what the atomic submit, cancel or next does, and no other step touches it; a push goes on to notify exactly if that submit is accepted; next answers exactly that item, or None if it finds the flag set |
| SchedulerLinear.Linearises | crates/repercep-scheduler/src/lib.rs:214-320 | over every interleaving the buckets are those of the atomic calls in the order of their locked sections, what next has returned is what those calls return, with None where it then found the flag set, and the flag is set exactly if shutdown was called |
| SchedulerLinear.StepsOpenIff | crates/repercep-scheduler/src/lib.rs:214-320 | over every interleaving the calls in progress fix which steps can be taken: submit and cancel are refused exactly after shutdown, each thread has its next step and no other, locked sections exclude each other, next is stuck only when parked |
| SchedulerLinear.PushAcceptedIff | crates/repercep-scheduler/src/lib.rs:222-235 | over every interleaving a push is accepted exactly if fewer than capacity live requests are queued at that moment, and the request is then in the queue; otherwise QueueFull and nothing changes |
| SchedulerLinear.NotReturnedUntilResubmitted | crates/repercep-scheduler/src/lib.rs:156-170 | over every interleaving, an id with no pending copy and no submission under way is not returned by next until it is submitted again |
| SchedulerLinear.CancelledIsNotReturned | crates/repercep-scheduler/src/lib.rs:285-290 | hence once an interleaved cancel has marked an id queued at most once, next does not return it until it is submitted again |
| SchedulerLinear.DrainEnds | crates/repercep-scheduler/src/lib.rs:254-268 | shut down and drained, the consumer's next pass answers None |
| SchedulerLinear.IdleConsumerParks | crates/repercep-scheduler/src/lib.rs:246-272 | with nothing queued the consumer parks after one pass, or after two exactly if an old permit was stored, which is used up |
| SchedulerLinear.DroppedFutureKeepsNotification | crates/repercep-scheduler/src/lib.rs:246-272 | dropping a future that was woken makes the next call look at the queue once more before parking exactly if notify_one had chosen it |
| Router.Router.constructor | crates/repercep-router/src/lib.rs:282-292 | starts empty; a queue depth below one becomes one |
| Router.Router.Accept | crates/repercep-router/src/lib.rs:297-329 | registered with a fresh channel, or refused for shutdown, a duplicate or the scheduler, leaving the map as it was |
| Router.Router.BeginPush | crates/repercep-router/src/lib.rs:348-391 | phase 1 rejects unknown, terminal and out-of-order pushes in that order; otherwise records the index and moves a first frame to Streaming |
| Router.Router.PushFrame | crates/repercep-router/src/lib.rs:343-418 | all three phases: the result and the new table, including the consumed index on backpressure and a closed channel; which result, by the history of the request, is RouterAnswers.PushAnswers |
| Router.Router.CompletePush | crates/repercep-router/src/lib.rs:409-416 | phase 3 completes whatever the state is |
| Router.Router.Subscribe | crates/repercep-router/src/lib.rs:425-438 | hands out the receiver once |
| Router.Router.Cancel | crates/repercep-router/src/lib.rs:442-474 | any non-terminal request becomes Cancelled and drops its channel ends |
| Router.Router.Receive | crates/repercep-router/src/lib.rs:425-438 | the subscriber reads the oldest waiting frame |
| Router.PutConsistent | crates/repercep-router/src/lib.rs:395-396 | a validated send keeps the channel ordered, bounded, with a final frame last |
| Router.RollbackRestores | crates/repercep-router/src/lib.rs:321-325 | registering and rolling back restores the map |
| Router.AdvanceTracks | crates/repercep-router/src/lib.rs:353-391 | phase 1 keeps every entry tied to its own consistent channel, with the push now in progress |
| Router.SendTracks | crates/repercep-router/src/lib.rs:395-407 | so does a successful send |
| Router.FinishTracks | crates/repercep-router/src/lib.rs:409-416 | so does phase 3 |
| Router.CancelTracksTasks | crates/repercep-router/src/lib.rs:447-462 | so does a cancel at any point between phases |
| RouterRuns.PushedIsDelivered | crates/repercep-router/src/lib.rs:343-418 | over every run of atomic calls: received ++ waiting = the frames pushed with Ok, in order, strictly increasing, at most max(depth,1) waiting; the sender is present exactly in non-terminal states; Complete exactly when a final frame was pushed |
| RouterRuns.StateTellsHistory | crates/repercep-router/src/lib.rs:477-480 | over every run the state answered is none if never accepted, Cancelled if a cancel succeeded, Complete if a final frame was pushed with Ok, else Streaming or Scheduled as some push passed its checks or none did |
| RouterRuns.FailedPushIsHarmlessIff | crates/repercep-router/src/lib.rs:343-407 | a failed push changes nothing, and repeated answers the same, if and only if it failed in phase 1; refused by the channel it answers OutOfOrderFrame next |
| RouterRuns.RefusedIndexIsConsumed | crates/repercep-router/src/lib.rs:384-407 | after a push that passed phase 1, refused or not, no run of atomic calls makes a push of that or an earlier index succeed |
| RouterRuns.TerminalStays | crates/repercep-router/src/lib.rs:86-92 | with atomic calls terminal states are absorbing |
| RouterRuns.RefusedAcceptRestores | crates/repercep-router/src/lib.rs:321-325 | an accept refused by the scheduler leaves the map as it was and the id free again |
| RouterRuns.AfterTracks | crates/repercep-router/src/lib.rs:297-487 | every atomic call keeps entries and channels consistent |
| RouterAnswers.TableAgrees | crates/repercep-router/src/lib.rs:297-487 | over every run and for every request, the table and the channel show what the caller-side reference says: present or not, state, priority, last index, frames sent and read, receiver alive, parked or taken |
| RouterAnswers.PushAnswers | crates/repercep-router/src/lib.rs:343-418 | after any run a push answers ShuttingDown once shut down; UnknownRequest if never accepted; InvalidTransition if ended; OutOfOrderFrame if the index is not above the last; otherwise Ok iff the receiver lives and fewer than depth frames wait, Backpressure with depth iff it lives and depth frames wait, UnknownRequest iff it was dropped |
| RouterAnswers.OtherAnswers | crates/repercep-router/src/lib.rs:297-474 | after any run accept is refused for an id in use, cancel for one never accepted or ended, subscribe unless the receiver is still parked, all of them once shut down, and each with its own error |
| RouterConcurrent.SubscribersSeeOrder | crates/repercep-router/src/lib.rs:343-418 | over every interleaving, subscribers see strictly increasing indices, at most one final frame, last, and nothing lost while they live; which frames those are is RouterHistory.SentIsHistory |
| RouterConcurrent.EndOfStreamExplained | crates/repercep-router/src/lib.rs:409-462 | a subscriber at end of stream has the final frame or its request was cancelled; frames belong to their request |
| RouterConcurrent.CompleteStays | crates/repercep-router/src/lib.rs:361-370 | Complete is absorbing under interleaving |
| RouterConcurrent.CancelledStep | crates/repercep-router/src/lib.rs:321-462 | one step from Cancelled goes nowhere, to Complete by phase 3 of a push, or out of the table by the rollback of the request's own accept |
| RouterConcurrent.CancelledIsLeftIff | crates/repercep-router/src/lib.rs:321-462 | Cancelled can be left if and only if an already validated final push can still take effect or the accept is still in its scheduler call; the entry can go if and only if the latter; with accept returned, Complete can be reached if and only if the former |
| RouterConcurrent.CancelThenComplete | crates/repercep-router/src/lib.rs:409-462 | a run from the start that leaves Cancelled for Complete |
| RouterConcurrent.CancelThenRollback | crates/repercep-router/src/lib.rs:318-325 | a run from the start in which a cancelled request is removed by the rollback of its accept |
| RouterConcurrent.TwoProducersReorder | crates/repercep-router/src/lib.rs:353-396 | two producers on one request can deliver frames out of order: the rule is needed |
| RouterConcurrent.IndexIsConsumed | crates/repercep-router/src/lib.rs:353-407 | over every interleaving after a push passed phase 1, its request stays in the table and no push of that or an earlier index passes phase 1 |
| RouterConcurrent.NextSafe | crates/repercep-router/src/lib.rs:297-474 | every interleaved step keeps the router invariant |
| RouterHistory.SentIsHistory | crates/repercep-router/src/lib.rs:343-462 | over every interleaving and for every request, its channel was sent, in order, exactly the frames whose try_send ran while the receiver lived and fewer than depth frames waited; the subscriber has read the first of them and while the receiver lives the rest wait; state, priority and last index are those of the callers' actions |
| RouterHistory.PushBeginsIff | crates/repercep-router/src/lib.rs:353-391 | over every interleaving a push passes phase 1 exactly if its request is there, has not ended, has no call in progress and the index is above the last |
| RouterHistory.StepsOpenIff | crates/repercep-router/src/lib.rs:297-474 | over every interleaving each other step can be taken exactly when the same history says so |
| LatentCache.Snapshot | crates/repercep-cache/src/lib.rs:226-228 | the pages in key order |
| LatentCache.Victim | crates/repercep-cache/src/lib.rs:153-172 | the scan returns the least unpinned page by (wrapped distance, last use, id), or nothing exactly when all are pinned |
| LatentCache.VictimIsOldestIff | crates/repercep-cache/src/lib.rs:154-170 | that is the least by (frame, last use, id), independent of the current frame, if and only if overflow does not split the unpinned pages |
| LatentCache.VictimExists | crates/repercep-cache/src/lib.rs:171 | an unpinned page means there is a victim |
| LatentCache.PagedLatentCache.Open | crates/repercep-cache/src/lib.rs:194-209 | sizes below one are refused |
| LatentCache.PagedLatentCache.Allocate | crates/repercep-cache/src/lib.rs:217-245 | refused exactly when full and fully pinned, changing nothing; otherwise evicts exactly the victim of a full cache and returns a never used id |
| LatentCache.PagedLatentCache.Touch | crates/repercep-cache/src/lib.rs:248-253 | updates the last use of that page alone |
| LatentCache.PagedLatentCache.Unpin | crates/repercep-cache/src/lib.rs:256-261 | unpins that page alone; that it does is LatentCacheHistory.PageTellsHistory |
| LatentCache.PagedLatentCache.ReleaseRequest | crates/repercep-cache/src/lib.rs:265-278 | frees exactly the owner's pages and counts them |
| LatentCache.PagedLatentCache.Stats | crates/repercep-cache/src/lib.rs:281-291 | free + allocated = capacity without underflow; pinned pages counted |
| LatentCacheRuns.RunAccounts | crates/repercep-cache/src/lib.rs:217-278 | over every run: keys are ids below the next one, at most capacity resident, allocations = resident + evicted + released |
| LatentCacheRuns.RefusedIff | crates/repercep-cache/src/lib.rs:225-230 | allocation fails if and only if full and fully pinned |
| LatentCacheRuns.EvictsOldestIff | crates/repercep-cache/src/lib.rs:153-172 | exactly one unpinned page leaves a full cache, and it is the oldest if and only if overflow does not split the unpinned pages |
| LatentCacheRuns.WrapEvictsNewer | crates/repercep-cache/src/lib.rs:159-163 | two pages for which the wrap-around evicts the newer |
| LatentCacheRuns.GoneStaysGone | crates/repercep-cache/src/lib.rs:232-243 | page ids are never reissued |
| LatentCacheRuns.PinnedStays | crates/repercep-cache/src/lib.rs:217-278 | a page never unpinned stays, owner and frame unchanged, until its own owner releases |
| LatentCacheRuns.ReleaseFreesOwner | crates/repercep-cache/src/lib.rs:265-278 | release keeps every page of every other owner |
| LatentCacheHistory.PageTellsHistory | crates/repercep-cache/src/lib.rs:217-278 | over every run a resident page carries the owner and frame of its allocation, the step of the latest touch of it since or else of the allocation, and is pinned exactly if no unpin of its id came since |
| LatentCacheHistory.AllocationIsUnique | crates/repercep-cache/src/lib.rs:232-243 | no two allocations of a run are given the same id |
| LatentCacheHistory.ResidentIff | crates/repercep-cache/src/lib.rs:217-278 | over every run a page is resident exactly if it was allocated and neither its owner's release nor the making of room on a full cache has taken it out since |
| LatentCacheHistory.FullAllocationSucceedsIff | crates/repercep-cache/src/lib.rs:225-261 | on a full cache an allocation succeeds exactly if some resident page has been unpinned since it was allocated |
| ActionTokens.EncodeInRange | src/repercep/models/vla_tokenize.py:48-52 | tokens lie in 0..bins-1 and the final clamp never acts |
| ActionTokens.EncodeMonotone | src/repercep/models/vla_tokenize.py:49-52 | encoding is monotone for any range ends |
| ActionTokens.EncodeSaturates | src/repercep/models/vla_tokenize.py:41-43 | out-of-range actions saturate at the end tokens |
| ActionTokens.TokenRoundTripIff | src/repercep/models/vla_tokenize.py:36-68 | for every integer t, encode(decode(t)) = t if and only if t is a valid token of a proper range or the one token of a degenerate range |
| ActionTokens.ActionRoundTrip | src/repercep/models/vla_tokenize.py:36-68 | decode(encode(x)) is within half a bin of x for an action in the range, and otherwise of the end of the range it lies beyond |
| ActionTokens.EncodeIsStable | src/repercep/models/vla_tokenize.py:36-68 | encoding a decoded encoding gives the same token, degenerate ranges included |
| ActionTokens.DecodeGrid | src/repercep/models/vla_tokenize.py:55-68 | tokens decode to the uniform grid: token 0 to low, the last to high, consecutive ones (high - low) / (bins - 1) apart |
| ActionTokens.ConstantChannel | src/repercep/models/vla_tokenize.py:27-33 | a zero-width channel decodes every token to low |
| ActionTokens.BatchRoundTrip | src/repercep/models/vla_tokenize.py:36-68 | fewer than two bins is an error; otherwise a batch keeps its shape and comes back within half a bin per channel |
| ActionTokens.TokensRoundTrip | src/repercep/models/vla_tokenize.py:36-68 | a row of integers survives exactly when each of its channels does |

## Left out

- Floating-point rounding, and the casts to BF16 and FP8: values are exact reals. INT8 rounding is modelled, with its error.
- The polynomial `exp_ps`: the exponential is abstract, a masked score weighs exactly 0. The polynomial's clamp leaves a tiny non-zero weight there.
- Scratch sizes and alignment: the kernels' scratch arrays are allocated at the size used.
- Masked Triton loads are guarded reads yielding 0; FP8 operands are contiguous, as the wrapper makes them.
- Fp8TritonLaunch.FlashAttention: shapes with no rows or no heads are excluded, since the source takes a maximum over each slab.
- The Ada and Hopper Triton kernels (same body, other constants), and the FP16 AMX scaffold.
- Autotuning, JSON configuration caches, device detection, AMX permission and tile-configuration state.
- Python bindings, tracing, and the internals of the async runtime and the channel library.
- Timeouts of the blocking variant of `next`, and wakeups with several consumers. Dropping the future of the one consumer is modelled.
- The router and scheduler together: the adapter between them is not part of this model, so the scheduler's answer is a parameter of `accept`.
- The shutdown check of the interleaved router calls: it only removes behaviour.
- Overflow of the 64-bit page counter, and eviction policies other than the frame-aware one.
- Attention and backend registries, configuration, command line, model engines, and the affine `denormalize_quantile`: dispatch, or calls into code not seen here.
- AmxInt8EndToEnd.FlashAttention: its two error bounds come from the INT8 rounding alone; the rounding of single-precision arithmetic is not added.
