# Verification of the expert runtime and its artifact toolchain

A Dafny model of two parts of this repository, and proofs of what they promise.

**The CPU expert runtime** (`tools/memra_cpu_experts.cpp`). Weights live in blocks that move between a
shared-memory arena, a recycling pool, an LRU cache, a speculative side buffer and reads in flight.
`ShmArena`, `BlockPool`, `WeightCache` and `PrefetchAnnex` hold the objects as classes whose methods are
proved equal to functions on their state; `ExpertMemory` puts those functions together in one step system
with crashes and warm restarts, and `ExpertLifecycle` follows a buffer through it. `IoDrain` and
`PrefetchBatch` are the two completion protocols, `MoeCall` is the parallel region of one call with
arbitrary float operations, and `KQuantLayout`, `ActivationQuantizer` and `DotKernels` are the packed formats
and the kernels that read them, in every instruction-set arm.

**The artifact toolchain** (`tools/*.py`). `KQuantizer` packs the formats that the kernels read, and
`QuantizerBounds` measures its scales and errors by the values alone. `OverlayBuild`, `ResumableBuild` and
`OverlayMerge` build an artifact, restart it and merge it from fragments. `QuantizedDot` and `OverlayFormats`
join the two parts: from a source tensor through its packed rows in the written file to the kernel's result.
`BudgetPlan` is the budget allocator's rewriting of its optimisation problem and `BudgetRows` the zero-one
matrix it solves, `DeltaRestore` the two-pass restore of pruned experts, `DualDevicePartition` the
longest-processing-time split over two devices, and `FleetReport` the restart-aware daily ledger. `Sorting`,
`Rounding` and `Options` are shared helpers.

Concurrency is modelled as steps that may interleave in any order; a theorem about a run quantifies over
every sequence of steps. Meaning is stated over `real`; where the order of float operations matters the
operations are unconstrained functions. `dafny verify dfyconfig.toml` checks everything.

Two findings differ from what the source's comments suggest. The allocator's objective centering keeps every
optimum exactly when no expert is cheaper to prune than to keep at its best encodings
(`BudgetPlan.KeepsOptimaExactly`); its tolerance lets a slightly smaller prune damage through, and one expert
with prune damage 0.9999999999999 against a floor of 1 then loses an optimum (`BudgetPlan.ToleranceLosesOptima`).
A plan may list a layer twice, and then sequential tier totals count it twice while merged fragments cannot
(`OverlayMerge.TotalsAgreeIffLayersAreDistinct`).

## Model

| member | source | states |
|---|---|---|
| ExpertMemory.HeldBuffersAreIntact | tools/memra_cpu_experts.cpp:2025-2049 | After any run of demand reads, prefetches, promotions, evictions, releases, crashes and reopenings, a buffer held by the cache, the annex or a landed read has exactly its key's bytes |
| ExpertMemory.NoByteHasTwoOwners | tools/memra_cpu_experts.cpp:323-375 | In every reachable state buffers in use, pooled blocks and holes share no byte, and the buffer of an unfinished read is referred to by that read alone |
| ExpertMemory.CleanIndexIsTrue | tools/memra_cpu_experts.cpp:1715-1739 | With crashes at any step, an index whose header is clean lists only separate blocks inside the segment that hold their keys' bytes |
| ExpertMemory.WarmRestartRestores | tools/memra_cpu_experts.cpp:1715-1739 | From any running state whose calls have settled, the whole shutdown (row by row, until the list or the table is exhausted), a reopening under a budget that holds the rows and the reload bring back exactly those arena-resident keys at the same places in the same order of use |
| ExpertMemory.StepKeepsInv | tools/memra_cpu_experts.cpp:2025-2049 | Every step, including opening, reloading, marking dirty and crashing, keeps the memory and index invariants |
| ExpertMemory.OpenKeepsInv | tools/memra_cpu_experts.cpp:277-286 | A segment is trusted only with a clean header of its own size, and opening it, or going without one, keeps the invariants |
| ExpertMemory.ArriveKeepsHeap | tools/memra_cpu_experts.cpp:2057-2078 | Bytes arriving in one buffer leave every other held buffer intact |
| ExpertMemory.TakeBlockIsApart | tools/memra_cpu_experts.cpp:323-355 | A block taken from the pool, the arena or the allocator overlaps no buffer, pooled block or hole |
| ExpertMemory.CollectKeepsHeap | tools/memra_cpu_experts.cpp:358-375 | Recycling or freeing an unreferenced buffer disturbs no holder |
| ExpertMemory.LoadKeepsInv | tools/memra_cpu_experts.cpp:1659-1693 | The reload loop, with its skipped rows and its budget guard, starts the process in a sound state |
| ExpertMemory.MarkCleanKeepsInv | tools/memra_cpu_experts.cpp:1719-1739 | The rows written at shutdown satisfy what a clean header promises |
| ExpertLifecycle.DemandReadIsCached | tools/memra_cpu_experts.cpp:2025-2080 | From any sound state a demand read can run its course, and then its key is the most recent one in the cache, in a buffer with the key's bytes |
| ExpertLifecycle.HitFinds | tools/memra_cpu_experts.cpp:1744-1753 | A hit gives the caller the cached buffer, intact, and moves its key to the end of the order without disturbing the others |
| ExpertLifecycle.SpeculativeReadIsHeld | tools/memra_cpu_experts.cpp:1925-1954 | A speculative read can run its course, and then, if there was room, its key is held beside the cache, which it left alone |
| ExpertLifecycle.PromotionTakes | tools/memra_cpu_experts.cpp:1956-1966 | A demand for a held key takes the intact buffer over, and the key is no longer held |
| ExpertLifecycle.LetGoIsTakenAgain | tools/memra_cpu_experts.cpp:323-375 | A block nobody refers to is kept for reuse under the cap, and the next read of its size is given that very block |
| ShmArena.AcquireIsSound | tools/memra_cpu_experts.cpp:149-168 | An acquired block is aligned, inside the data segment, and shares no byte with live blocks or remaining holes |
| ShmArena.ReloadIsSound | tools/memra_cpu_experts.cpp:188-197 | The sweep's holes are exactly the unoccupied bytes below the bump pointer, and nothing overlaps |
| ShmArena.GapsAreExact | tools/memra_cpu_experts.cpp:188-197 | Byte by byte, also for overlapping ranges: a byte the cursor passed is in a gap exactly when no range covers it |
| ShmArena.SharedArena.Acquire | tools/memra_cpu_experts.cpp:149-168 | The first-fit loop over holes, then the bump pointer, keeps the arena sound and returns what the first fit determines |
| ShmArena.SharedArena.FinishReload | tools/memra_cpu_experts.cpp:184-197 | The sort-and-sweep loop reaches the swept state with exact holes |
| ShmArena.SharedArena.Release | tools/memra_cpu_experts.cpp:170-174 | Releasing a live block keeps the arena sound |
| BlockPool.RawBlockPool.Acquire | tools/memra_cpu_experts.cpp:323-355 | Recycled block of that very size, else arena, aligned to 2 MiB from that size on and to pages below, else private, with the byte count exact |
| BlockPool.RawBlockPool.Release | tools/memra_cpu_experts.cpp:358-375 | Arena blocks always return to the end of the pool, private ones exactly while the pooled bytes stay within 2 GiB |
| BlockPool.TakeIsLast | tools/memra_cpu_experts.cpp:326-332 | One list in release order behaves as the per-size vectors: a take pops its own size and leaves the others |
| BlockPool.PutKeepsCount | tools/memra_cpu_experts.cpp:359-368 | Pooled bytes stay counted and pooled private bytes never exceed the cap |
| WeightCache.RunKeepsAccounts | tools/memra_cpu_experts.cpp:1744-1792 | In every run the LRU list is duplicate-free and matches the index, used bytes are the sum of lengths, and a start within budget stays within budget |
| WeightCache.EvictsShortestPrefix | tools/memra_cpu_experts.cpp:1783-1791 | Eviction drops the shortest oldest prefix that fits the budget, and nothing else |
| WeightCache.TouchMovesOne | tools/memra_cpu_experts.cpp:1744-1753 | A touch moves one key to the end and leaves the order of all others as it was |
| WeightCache.DemandInsertStays | tools/memra_cpu_experts.cpp:1755-1792 | A demand insert that fits the budget leaves its key as the most recent entry |
| WeightCache.ColdInsertEvictsNobody | tools/memra_cpu_experts.cpp:1764-1792 | A cold insert enters if there is room and otherwise changes nothing |
| WeightCache.WeightCache.Find | tools/memra_cpu_experts.cpp:1744-1753 | A hit returns the key's buffer and moves that key alone to the back |
| WeightCache.WeightCache.InsertAt | tools/memra_cpu_experts.cpp:1764-1792 | The insert and its eviction loop reach the specified state, coherent |
| PrefetchAnnex.EventsKeepBudget | tools/memra_cpu_experts.cpp:1925-1966 | In every run held and in-flight keys stay apart and held bytes stay counted and within budget |
| PrefetchAnnex.ExpiryEndsWithinBudget | tools/memra_cpu_experts.cpp:1944-1953 | Expiry ends within budget although the queue keeps stale keys, and only lets buffers go |
| PrefetchAnnex.ExpiresFromTheFront | tools/memra_cpu_experts.cpp:1944-1953 | What expires is what the shortest front part of the queue names that brings the rest within budget |
| PrefetchAnnex.CompleteKeepsBudget | tools/memra_cpu_experts.cpp:1936-1954 | A landed read joins the held buffers; nothing expires while there is room |
| PrefetchAnnex.PrefetchAnnex.BeginRead | tools/memra_cpu_experts.cpp:1925-1929 | A read starts exactly when its key is neither held nor in flight |
| PrefetchAnnex.PrefetchAnnex.CompleteRead | tools/memra_cpu_experts.cpp:1936-1954 | The completion and its expiry loop reach the specified state, within budget |
| PrefetchAnnex.PrefetchAnnex.Take | tools/memra_cpu_experts.cpp:1956-1966 | A take returns the held buffer and releases its bytes |
| IoDrain.NoWriteAfterTheDrain | tools/memra_cpu_experts.cpp:2268-2278 | After the drain no read of the call is queued or running in any continuation, so its buffers are never written again |
| IoDrain.CountersAreExact | tools/memra_cpu_experts.cpp:2248-2257 | Under any interleaving the outstanding count is the number of experts with pending reads, and each is announced once, after its last read |
| IoDrain.EachJobRunsAtMostOnce | tools/memra_cpu_experts.cpp:2211-2222 | No job is taken twice, also while stopping; in a drained call without an error every read ended without one |
| IoDrain.AllBytesArrive | tools/memra_cpu_experts.cpp:2057-2077 | When a drained call reports no error, the counts its reads returned over the run add up to the length of every one of its jobs |
| IoDrain.FirstErrorIsKept | tools/memra_cpu_experts.cpp:2248-2257 | After any run the call's error is that of the first of its reads to end with one, whatever fails later |
| IoDrain.FairWorkersReachTheDrain | tools/memra_cpu_experts.cpp:2211-2278 | In every endless run in which no worker is for ever able to act without acting, whatever other callers go on submitting, a time comes when every job queued at submission has finished and the drain is open |
| IoDrain.EarlierWorkIsBounded | tools/memra_cpu_experts.cpp:2211-2258 | In any run, other callers' submissions included, the workers take no more steps on the earliest jobs than those had left |
| IoDrain.EarlierWorkCanGoOn | tools/memra_cpu_experts.cpp:2211-2222 | After any run, while one of the call's jobs is unfinished, some enabled worker step leaves less of the jobs queued up to its submission |
| IoDrain.RunsKeepFirstCome | tools/memra_cpu_experts.cpp:2211-2222 | Over every run the jobs queued up to the submission precede later ones, and while one of them waits every busy worker is on one of them |
| IoDrain.NobodyAddsEarlierWork | tools/memra_cpu_experts.cpp:2211-2258 | No step of anyone adds to what is left of the earliest jobs, and a worker's step on one of them takes from it |
| IoDrain.WorkerRunsAreBounded | tools/memra_cpu_experts.cpp:2211-2258 | When nobody else submits, a run is no longer than the work there was |
| IoDrain.StuckMeansDrained | tools/memra_cpu_experts.cpp:2211-2278 | When no worker can step any more every job has run and the drain is open, stopping or not |
| IoDrain.AppendProjectionJobs | tools/memra_cpu_experts.cpp:2280-2305 | The reads cover the projection and the pending counts are the numbers of reads |
| IoDrain.StepKeepsInv | tools/memra_cpu_experts.cpp:2211-2258 | Every step of workers, other callers, stopping and the drain keeps the queue and counter invariants |
| PrefetchBatch.ReportedOnceAfterAllReads | tools/memra_cpu_experts.cpp:2226-2241 | A projection is reported to the annex at most once, after all its reads, and completed exactly when none failed |
| PrefetchBatch.FreedOnceAfterTheLastAccess | tools/memra_cpu_experts.cpp:2242-2246 | The batch is freed at most once, and no worker touches it afterwards |
| PrefetchBatch.StuckMeansFreed | tools/memra_cpu_experts.cpp:2226-2247 | A run that cannot go on has reported every projection and freed the batch |
| PrefetchBatch.RunsEnd | tools/memra_cpu_experts.cpp:2226-2247 | Every run has a fixed number of steps per read |
| MoeCall.EveryScheduleWritesTheSerialOutput | tools/memra_cpu_experts.cpp:2438-2515 | For every split into cached and missing experts, every landing order and every task order, a finished call without a failed read has the serial output and finite flags |
| MoeCall.LoopDone | tools/memra_cpu_experts.cpp:2378-2431 | When every task of a worksharing loop is done, every expert of the subset is through that loop, for the source's division and remainder indexing |
| MoeCall.ComputeCall | tools/memra_cpu_experts.cpp:2378-2515 | On one thread, loop by loop over each subset with the wait in between, the region writes that same output and those flags |
| MoeCall.ReadsCanLand | tools/memra_cpu_experts.cpp:2464-2476 | From any state the reads in flight can all land, each with its own weights and touching nothing else |
| MoeCall.NeverStuck | tools/memra_cpu_experts.cpp:2454-2515 | Once the reads are over, the region can always take a step until it is finished |
| DotKernels.RowIsDecodedDot | tools/memra_cpu_experts.cpp:649-944 | Over the reals each of the Q4_K, Q2_K and Q3_K kernels is the sum of decoded weight times decoded activation, for any bytes and any number of superblocks |
| DotKernels.VnniIsExact | tools/memra_cpu_experts.cpp:550-560 | The biased unsigned dot minus 128 times the sum is the signed dot, with no 32-bit overflow |
| DotKernels.Avx2IsExact | tools/memra_cpu_experts.cpp:561-573 | The 16-bit products and pair sums are exact |
| DotKernels.DotScalar | tools/memra_cpu_experts.cpp:574-578 | The portable loop computes the same dot |
| DotKernels.DotRow | tools/memra_cpu_experts.cpp:649-944 | In each of the five arms (portable, SSSE3, AVX2, AVX-VNNI, both), with their own unpacking, grouping and integer dot, the loops compute the specified row, operation by operation |
| DotKernels.Unpack16IsCodes | tools/memra_cpu_experts.cpp:582-600 | Shifting a 128-bit register in 16-bit lanes and masking bytes gives the portable loop's sixteen codes |
| DotKernels.Unpack32IsCodes | tools/memra_cpu_experts.cpp:663-672 | One 256-bit register gives the codes of two neighbouring groups |
| DotKernels.DotRowMulti | tools/memra_cpu_experts.cpp:1109-1263 | Unpacking once for all rows, or row by row where the arm does, each row takes the operations of the single-row path in the same order |
| ActivationQuantizer.Quantize | tools/memra_cpu_experts.cpp:516-547 | A block's scale is its largest finite magnitude over 127, each code is the nearest number of steps, the even one of two, sums are those of the codes, and the flag says whether every input was finite |
| KQuantLayout.ScaleMinInverts | tools/hy3_mlx_to_q4k.py:253-260 | The C++ reader inverts Python's packing of the 6-bit scale and minimum pairs |
| KQuantLayout.ScalesRoundTrip | tools/hy3_mlx_to_q4k.py:253-260 | All eight pairs survive packing and unpacking |
| KQuantLayout.PackNibbles | tools/hy3_mlx_to_q4k.py:301-311 | Every 4-bit code is read back |
| KQuantLayout.PackTwoBits | tools/prepare_mixed_expert_repack.py:200-216 | Every 2-bit code is read back |
| KQuantLayout.SplitHighBits | tools/prepare_mixed_expert_repack.py:239-246 | The mask and the low bits together hold every 3-bit code |
| KQuantLayout.PackQ3KScales | tools/prepare_mixed_expert_repack.py:254-260 | Every 6-bit scale is read back |
| KQuantLayout.Q3KReadersAgree | tools/memra_cpu_experts.cpp:913-927 | The 32-bit-word reader and the byte reader see the same scales in any bytes |
| KQuantizer.QuantizeError | tools/prepare_mixed_expert_repack.py:174-260 | Q4_K, Q2_K and Q3_K: every value, clipped and zero-scale groups included, comes back within an explicit bound in the group's step, the half-unit of its scales and what narrowing the block scales did to them |
| KQuantizer.SignedError | tools/prepare_mixed_expert_repack.py:226-238 | The Q3_K scale search keeps scales and codes in range and each value within one stored step plus four times the scale's error |
| KQuantizer.AffineError | tools/hy3_mlx_to_q4k.py:277-299 | The same for Q4_K and Q2_K: codes are rounded against the stored scales, and the bound is the larger of half a step and what the scale and minimum lost |
| QuantizerBounds.BlockScales | tools/hy3_mlx_to_q4k.py:276-285 | Q4_K and Q2_K: the widest group span, from its largest value to its reach below zero, is 945 or 45 units of the block scale, and the deepest reach 63 or 15 units of the other, each attained by values of the block |
| QuantizerBounds.SignedScaleIsPeak | tools/prepare_mixed_expert_repack.py:226-235 | Q3_K: 128 units of the block scale are the block's first value of the largest magnitude |
| QuantizerBounds.AffineErrorInValues | tools/hy3_mlx_to_q4k.py:276-299 | The error bound of Q4_K and Q2_K in the values of the block and the relative error of half precision alone |
| QuantizerBounds.SignedErrorInValues | tools/prepare_mixed_expert_repack.py:226-238 | The same for Q3_K, from the peaks of the group and of the block |
| KQuantizer.QuantizeRows | tools/hy3_mlx_to_q4k.py:263-312 | Any number of rows of any number of blocks: refused unless a row is a multiple of 256 wide, and otherwise the blocks' encodings in order, for all three formats |
| KQuantizer.BlockRoundTrip | tools/hy3_mlx_to_q4k.py:319-387 | Whatever integers and scales are in range, the readers recover exactly them from the packed block |
| KQuantizer.RowRoundTrip | tools/prepare_mixed_expert_repack.py:354-390 | The k-th block of a packed row, where the readers look for it, unpacks to the k-th quantized block |
| KQuantizer.PackedJoins | tools/prepare_mixed_expert_repack.py:174-216 | Packing two runs of blocks together is packing them one after the other |
| QuantizedDot.PackedRowDot | tools/memra_cpu_experts.cpp:649-944 | The kernel on a packed row of any number of blocks is the sum of dequantized weight times decoded activation |
| QuantizedDot.KernelComputesTheDot | tools/memra_cpu_experts.cpp:649-944 | Pack the weights, quantize the inputs, run the kernel: the result is within an explicit sum of slacks of the true dot product |
| QuantizedDot.KernelIsWithin | tools/memra_cpu_experts.cpp:649-944 | The same with a bound in the weights and the inputs alone: half an activation step is a 254th of the block's largest input |
| OverlayFormats.ChunkIsRows | tools/prepare_mixed_expert_repack.py:471-495 | Packing a chunk of rows together is packing its rows one by one |
| OverlayFormats.QuantizeKChunk | tools/prepare_mixed_expert_repack.py:714-726 | A K quantizer on one chunk yields the rows' own encodings, or refuses |
| OverlayFormats.KTensorsEncode | tools/prepare_mixed_expert_repack.py:748-760 | The size check never fires for an aligned tensor in a K format |
| OverlayFormats.RowInFile | tools/memra_cpu_experts.cpp:2363-2370 | In a written file, the bytes at the record's offset plus row times row bytes are that row's encoding |
| OverlayFormats.FileRowDot | tools/memra_cpu_experts.cpp:2363-2370 | The kernel on the bytes of a row taken from the written file is within the slacks of the dot product of the source row and the inputs |
| OverlayFormats.FileRowIsWithin | tools/memra_cpu_experts.cpp:2363-2370 | The same with the bound in the source row and the inputs alone |
| ResumableBuild.ReceiptsAreTrue | tools/prepare_mixed_expert_repack.py:655-791 | Over any sequence of started, finished or crashed runs, a receipt on disk implies that the file is the one it describes |
| ResumableBuild.ResumedEqualsFresh | tools/prepare_mixed_expert_repack.py:694-791 | A resumed build that ends has the same files and receipts as a fresh one |
| ResumableBuild.FinishedIsComplete | tools/prepare_mixed_expert_repack.py:694-791 | A run that reaches its end has every file and receipt of its plan |
| ResumableBuild.ResumedBuildCanFinish | tools/prepare_mixed_expert_repack.py:640-791 | After any history of plans and crashes, a run over a plan whose files can each be kept or encode to their recorded sizes can reach its end |
| ResumableBuild.Directory.BuildFile | tools/prepare_mixed_expert_repack.py:694-791 | It succeeds exactly when the file can be kept or every encoding has its recorded size; the directory it leaves is stated outright in all cases, and the loop is one of the runs of the step system |
| ResumableBuild.KeptOrMadeAnew | tools/prepare_mixed_expert_repack.py:694-791 | A file is left alone exactly when the build resumes and the file is there with its recorded size and that very receipt; every other one is made anew, decided by the encodings alone |
| ResumableBuild.Directory.Prepare | tools/prepare_mixed_expert_repack.py:640-791 | From true receipts it leaves true receipts, and it succeeds, with the whole plan in place, exactly when each file can be kept or encodes to its recorded sizes |
| OverlayBuild.EncodeExpert | tools/prepare_mixed_expert_repack.py:471-495 | Any row-chunk size joins to the encoding of the whole tensor |
| OverlayBuild.EncodeBatches | tools/prepare_mixed_expert_repack.py:738-747 | Any number of workers, finishing in any order, yields the encodings in expert order |
| OverlayBuild.RecordsTileTheFile | tools/prepare_mixed_expert_repack.py:657-673 | Each record points at exactly its tensor's bytes, and the records tile the payload |
| OverlayBuild.ExpertsAreRetained | tools/prepare_mixed_expert_repack.py:640-673 | A file holds exactly the experts its plan does not prune from that layer, in ascending order |
| OverlayBuild.RecordIsAssigned | tools/prepare_mixed_expert_repack.py:657-673 | A record carries the encoding the plan assigns, the tensor's shape, and the row and tensor sizes of that encoding |
| OverlayBuild.TiersConcat | tools/prepare_mixed_expert_repack.py:772-778 | Tier totals of two lists of tensors add up, encoding by encoding |
| OverlayBuild.TiersCount | tools/prepare_mixed_expert_repack.py:800-806 | The tiers' bytes are the tensors' bytes |
| OverlayBuild.Manifest.AddProjection | tools/prepare_mixed_expert_repack.py:640-784 | One file's loop writes the payload and records its layout and totals, and stops exactly when something is misaligned or missized |
| OverlayBuild.Manifest.Prepare | tools/prepare_mixed_expert_repack.py:637-806 | Records, totals, payloads and artifact bytes depend on plan and source only, not on chunk size or workers |
| OverlayMerge.AnySplitMergesToTheSequentialBuild | tools/merge_expert_overlay_fragments.py:56-179 | Any split into disjoint layer fragments merged in any order is accepted and equals one sequential build |
| OverlayMerge.Merge | tools/merge_expert_overlay_fragments.py:37-111 | It accepts exactly the fragments that pass every check, and unites tensors and totals |
| OverlayMerge.ExtentIsInside | tools/merge_expert_overlay_fragments.py:74-77 | The check of one record holds exactly when it has bytes and each of them is a byte of its payload file |
| OverlayMerge.AnyOrder | tools/merge_expert_overlay_fragments.py:56-92 | Records, totals and payloads do not depend on the order of the layers |
| OverlayMerge.TotalsAgreeIffLayersAreDistinct | tools/prepare_mixed_expert_repack.py:66-72 | Sequential and merged byte totals agree exactly when the plan's layers are distinct |
| BudgetPlan.DominatedQtypes | tools/build_hy3_smart_budget_plan.py:118-148 | Listed are exactly the encodings that are not the least damaging, or not the smallest of those, within their own bytes, each with the smallest, then least damaging, then first-named encoding that beats it, which is itself not listed; a negative damage is refused |
| BudgetPlan.DominatedIsNotBest | tools/build_hy3_smart_budget_plan.py:128-139 | An encoding is dominated exactly when, within its own bytes, another does less damage or a smaller one as little |
| BudgetPlan.WitnessIsUndominated | tools/build_hy3_smart_budget_plan.py:140-147 | The least-key witness is dominated by nothing |
| BudgetPlan.RewrittenDamage | tools/build_hy3_smart_budget_plan.py:327-351 | The rewritten objective is the original minus a constant, plus what clipping adds, over the scale |
| BudgetPlan.SolvedIsNearOptimal | tools/build_hy3_smart_budget_plan.py:300-420 | Under any ceiling, floors and protection, the solver's optimum is within the competitor's clipped amount of any feasible plan |
| BudgetPlan.KeepsOptimaExactly | tools/build_hy3_smart_budget_plan.py:327-352 | Every optimum is kept, for all limits, exactly when every prune damage is at least the sum of minima |
| BudgetPlan.TooLittlePruneDamage | tools/build_hy3_smart_budget_plan.py:335-342 | Otherwise there are limits under which the solver's answer is not optimal |
| BudgetPlan.ToleranceLosesOptima | tools/build_hy3_smart_budget_plan.py:335-341 | Costs that the tolerance lets through and that lose an optimum at every scale |
| BudgetPlan.BuildObjective | tools/build_hy3_smart_budget_plan.py:300-352 | It stops at the first expert that is cheaper to prune than to keep in any way by more than a part in 10^12; otherwise the rewritten costs, at a scale that is the largest centered entry or 1e-30, keep every optimum to within the sum of those tolerances |
| BudgetPlan.RejectsIsTooCheap | tools/build_hy3_smart_budget_plan.py:336-342 | The check refuses exactly the experts that every way of keeping makes dearer than pruning by more than the tolerance |
| BudgetPlan.AcceptedNearlyKeepsOptima | tools/build_hy3_smart_budget_plan.py:327-352 | Of accepted costs, under any limits, the solver's answer is within the sum of the tolerances of every feasible plan |
| BudgetRows.RowsAreAChoice | tools/build_hy3_smart_budget_plan.py:360-368 | Every zero-one solution of an expert's equality rows is the encoding of one choice |
| BudgetRows.PlansSatisfyRows | tools/build_hy3_smart_budget_plan.py:360-405 | A plan's variables satisfy the ceiling, survivor, Q2 and protection rows exactly when the plan is feasible, and the dominance bounds exactly when it is undominated, with the same objective |
| BudgetRows.RowsAreThePlans | tools/build_hy3_smart_budget_plan.py:353-408 | A zero-one vector satisfies the whole matrix if and only if it encodes a feasible undominated plan |
| BudgetRows.LeastSolutionsAreSolvedPlans | tools/build_hy3_smart_budget_plan.py:353-408 | The least solutions of the matrix are exactly the solved plans |
| DeltaRestore.StateMap | tools/build_hy3_delta_restore_plan.py:45-56 | A plan is refused exactly when it lists a slot twice; otherwise the map holds exactly what the groups list |
| DeltaRestore.GroupAssignments | tools/build_hy3_delta_restore_plan.py:171-181 | The groups strictly ascend by layer, gate before up before down, then encoding, each lists its experts in ascending order, and they expand back to exactly the states |
| DeltaRestore.StatesAreUnique | tools/build_hy3_delta_restore_plan.py:45-56 | Groups stand for one state map only, so expanding regrouped states gives them back |
| DeltaRestore.Build | tools/build_hy3_delta_restore_plan.py:221-301 | Base experts and encodings are kept, result bytes are base plus selected costs within target, Q2 limits hold if the base met them, the picks follow the order of the two passes until nothing fits, and each error has its exact condition |
| DeltaRestore.Select | tools/build_hy3_delta_restore_plan.py:246-290 | The two passes with running totals compute the specified selection, which is greedy |
| DeltaRestore.SelectionIsGreedy | tools/build_hy3_delta_restore_plan.py:246-290 | First one pick per layer, going up: the highest score that fits, then fewest bytes, then the lowest number, and none only if none fits; then each pick has the highest score over root of cost of all that are left and fit, with ties by score, bytes, layer and number |
| DeltaRestore.SelectionIsMaximal | tools/build_hy3_delta_restore_plan.py:246-290 | Totals describe the selection, both limits hold, and every positive candidate left out no longer fits |
| DeltaRestore.SeedTakesTheBest | tools/build_hy3_delta_restore_plan.py:264-275 | The first pass takes each layer's best candidate that fits, and none only if none fits |
| DeltaRestore.FillTakesWhatFits | tools/build_hy3_delta_restore_plan.py:276-290 | The second pass leaves a candidate out only when it did not fit at its turn |
| DeltaRestore.Candidates | tools/build_hy3_delta_restore_plan.py:224-238 | A row for each donor-only expert with its encodings, bytes, score and score over root of bytes; refused exactly when an encoding or a size is missing or the cost is not positive |
| DeltaRestore.RestoredQ2 | tools/build_hy3_delta_restore_plan.py:239-260 | The running Q2 count bounds the restored plan's, and equals it when the base assigned only retained experts |
| DualDevicePartition.Partition | tools/build_dual_nvme_expert_view.py:110-116 | The bins hold exactly the files, the totals are their sizes, and the larger is within 7/6 of the best split |
| DualDevicePartition.BoundInAnyOrder | tools/build_dual_nvme_expert_view.py:110-116 | The 7/6 bound against every two-way split, for any list of sizes |
| DualDevicePartition.BoundIsTight | tools/build_dual_nvme_expert_view.py:110-116 | The constant cannot be lowered |
| FleetReport.TakeRow | tools/fleet-report.py:183-234 | The report stops at a row exactly when the row is unreportable, and otherwise its ledger holds one row further |
| FleetReport.DailyDeltas | tools/fleet-report.py:183-234 | It raises exactly on an unreportable row; otherwise every counter summed over days equals the last readings of the segments, which start exactly where a row says so or a reading falls, and each day's computed is prompt minus cached and non-negative |
| FleetReport.ResetStartsSegment | tools/fleet-report.py:112-136 | The restart test holds exactly of the first row, of flagged rows, and of rows where some comparable reading falls |
| FleetReport.DisagreementIsUnreportable | tools/fleet-report.py:157-180 | The tenant test fires exactly when some tenant's cached tokens grew by more than its prompt tokens |
| FleetReport.SegmentsOnlyGrow | tools/fleet-report.py:112-180 | Inside a segment no reading falls, so the report's regression checks never fire |
| FleetReport.AddRowAddsDelta | tools/fleet-report.py:139-180 | A row adds exactly its delta to its day, for every metric |
| FleetReport.LedgerStep | tools/fleet-report.py:183-234 | One row keeps the ledger law up to every date |

## Left out

- ExpertMemory.CleanIndexIsTrue: a crash ends the process, not the machine; the header reset at open is one step, as is the whole reload.
- ExpertMemory.HeldBuffersAreIntact: every read has a positive length, mirrors hold the same bytes as their source, and a buffer with no holder left may be recycled at any later step rather than at once.
- ExpertMemory.WarmRestartRestores: says nothing of a reload that the budget guard cuts short, which can overshoot by one entry.
- ShmArena.SharedArena.Release: the pool never calls the arena's release; bytes skipped when the bump pointer is aligned are lost, so no exact conservation is claimed.
- PrefetchAnnex.CompleteKeepsBudget: strict first-in-first-out expiry is not claimed, because a taken key stays in the queue and a key speculated again can expire early.
- IoDrain.NoWriteAfterTheDrain: claims only the read buffers; the call's own state object is notified after its lock is dropped. Job submission and thread start are assumed to succeed.
- IoDrain.FairWorkersReachTheDrain: a read is assumed not to be interrupted for ever, and nothing is submitted once the pool is stopping.
- PrefetchBatch.FreedOnceAfterTheLastAccess: sequentially consistent atomics; the global in-flight counter is not modelled, since it adds per projection and subtracts per job.
- MoeCall.ComputeCall: the working arrays are values, and the wait yields the buffers as the reads left them, none having failed.
- MoeCall.EveryScheduleWritesTheSerialOutput: one loop iteration is one step; a row dot's own arithmetic is an unconstrained function here and is the subject of `DotKernels`. Input preparation and profiling are left out.
- DotKernels.RowIsDecodedDot: exact reals; half-precision conversion is an arbitrary function of two bytes and IEEE rounding and contraction are not modelled. Vector instructions appear as the lane arithmetic they perform.
- KQuantizer.QuantizeError: arithmetic is over exact reals and the 1e-30 cutoff is zero; half precision is any way to store and load a real that keeps non-negative values non-negative, so its overflow to infinity is not modelled.
- ResumableBuild.ReceiptsAreTrue: a receipt determines its bytes, one build runs in a directory at a time, and data handed to the operating system survives the process.
- OverlayBuild.EncodeExpert: quantizers work row by row, which `OverlayFormats` proves for the three K formats only, and a tensor's name fixes its encoding and importance; source tensors exist and keep their shapes.
- OverlayMerge.AnySplitMergesToTheSequentialBuild: tensors have positive sizes and every file can be written; tensor overrides are left out.
- BudgetPlan.KeepsOptimaExactly: no base plan and no binding per-layer Q2 cap, where a dominated encoding's Q2_K witness may be infeasible. The solver itself is taken to return an optimum of the problem it is given.
- DeltaRestore.Build: scores are inputs, the square root is any function that is positive on positive costs, and the base plan's Q2 limits cover the candidates' layers.
- FleetReport.DailyDeltas: timestamps are seconds of UTC days; parsing, per-day economics and formatting are left out.
- The other packed formats (Q8_0, Q5_K, Q6_K, IQ4_XS, IQ3_S, NVFP4) repeat the patterns shown for the three K formats.
- File locking, mapping, direct I/O, hashing and JSON are replaced by abstract bytes, steps that may fail, and values compared for equality.
- Environment flags, memory-headroom parsing, CPU pinning, HTTP clients, benchmarks, training and scoring are left out.
