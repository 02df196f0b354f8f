# imgjit: a verified model

imgjit is an image server. A client sends a frame and an op chain; the chain is planned
into fused GPU stages, compiled, cached and launched on one of K asynchronous streams, and
the result goes back on the client's connection. This project models the three parts that
are hard to get right and joins them.

**The fusing compiler and its executor.** `fusion_plan.dfy` regroups a chain into stages,
`kernels.dfy` is what each emitted kernel does (registers, re-quantization at every op
boundary, prologue at every clamped tap, runtime or baked parameters), `launches.dfy` is a
whole grid of threads in any order with the tiled variant's cooperative load,
`arguments.dfy` binds launch arguments by name, `device.dfy` is the queue of operations one
frame puts on its stream, with two buffers trading places. `oracle.dfy` is the scalar fold
they must equal. `kernel_key.dfy`, `programs.dfy`, `same_programs.dfy` and `kernel_cache.dfy`
are the key, its bytes and hash, when two keys mean one program, and the cache. Positions
and coordinates in emitted code are 32-bit and wrap, as its `int`s do.

**The concurrent frame pipeline.** `backend.dfy` is the asynchronous backend as a step
system and `cuda_backend.dfy` its methods, whose every change is one of those steps.
`backend_shape.dfy` is what holds of it whatever chains it is given, `backend_content.dfy`
what canonical chains give. `server.dfy` is the server as a step system: reader and writer
threads per connection, the slot pool, the bounded queue, the worker with its in-flight
table, and `stop()`. `system.dfy` joins them; a copy in reads its host slot when the GPU
executes it, not when it was queued. `wires.dfy` gives every connection the bytes its peer
sends. `lowering.dfy`, `draining.dfy`, `every_run.dfy` and `stopping.dfy` are about
progress, `wakeups.dfy` about condition variables.

**Text and bytes.** `texts.dfy`, `numerals.dfy` and `op_chain_text.dfy` are the op-chain
parser and printer, `protocol.dfy` the wire headers, `framing.dfy` exact reads over short
ones and the reader's resynchronization.

The main results, in the order they build on each other:

1. `Device.FrameComputesChain`: for every chain, channel count, tile, constants mode and
   image, and every order of threads and tile loads, a frame's queued operations stay inside
   their buffers and leave in staging the left-to-right fold of the chain, when the frame
   fits the 32-bit arithmetic of the kernels and, in parameterized mode, its weights fit the
   25 taps of the argument array. `Kernels.IndexedRightIff`, `Launches.StaysInsideIff`,
   `Launches.NeighboursRightIff` and `Arguments.TapsHeldIff` say that each condition is exact.
2. `KernelCaches.RunsAreTransparent`, `KernelCaches.CompilesAreDistinctKeys`: over any run of
   lookups and flushes the cache answers as compiling afresh would, and its counter is the
   number of distinct keys built in each lifetime, added up.
   `SamePrograms.EqualKeysGenerateAlikeIff` says exactly which equal keys share a program.
3. `Backends.HandlesAlwaysPartitioned`: whatever chains are submitted, every issued handle is
   always in exactly one of reported, waiting, on the GPU or launching, whatever fails and
   whenever.
4. `ServerRuns.RunKeepsInv` with `SlotsConserved`, `AnsweredHasResponse`, `OneResponseEach`,
   `PushNeverFails` and `JoinedMeansDone`: slot conservation, exactly one response each, and
   an orderly shutdown.
5. `SystemRuns.OkResponseIsTrue` and `OkResponsesAreTrue`: in every interleaving, an ok
   response is the frame's own chain folded over the payload received for that frame; of
   every frame of at most 2^31 - 31 bytes, and so of every frame under such a payload limit.
6. `Wires.ReadersFollowBytes` and `Wires.ClientIsServed`: a connection's frames and rejections
   are, in order, what the bytes of its peer call for. A client that sends well-framed
   requests has, once `stop()` has joined its connection, one response for each of them up
   to the first that closes, and each is the right one.
7. `Lowering.StepLowers`, `Draining.NeverStuck` and `EveryRun.FairRunDrains`: every step of the
   worker or the GPU other than a poll in vain or a driver fault leaves less to do; while a
   frame waits such a step can be taken, and a launch fails only for a cause; and every endless
   run of all threads, without faults and once no more frames are handed over, answers all of
   them under two fairness assumptions. `Draining.SystemDrains` and `Stopping.StopEnds`: from
   every reachable state the worker and the GPU alone can free every slot, and `stop()` can end.

Arithmetic on samples is exact: a register holds the number k/255. The square root, the 1D
Gaussian weights and the product of two weights are parameters (`Oracle.Numerics`), the same
on both sides. Luma uses the weights of section 2.5.1 of Recommendation ITU-R BT.601.

Inputs from outside the program are parameters: what the driver, the compiler and the GPU do
is a script or a choice of steps (`CudaBackends.DriverEvent`, `KernelCaches.BuildReply`,
`Launches.Schedule`), and so is how each `recv` goes (`Framing.RecvOutcome`).

Where the code and its documentation differ, the model follows the code:

- The header product is compared modulo 2^64 (`src/net/protocol.cpp:167`), so validation alone
  does not give the exact product the documentation speaks of: `Protocol.WrapPasses` has the
  input. Under every limit `Protocol.ExactIffNoWrap` says when it is exact, by a division; for
  frames that are served `Protocol.ServedFrameIsExact` does, and for limits an `int` holds
  `Protocol.ExactIffNarrow`.
- Emitted kernels compute positions in a 32-bit `int` (`src/backend/cuda/codegen.cpp:200`),
  while the payload limit is any 32-bit unsigned number (`include/imgjit/net/server.h:53`). A
  frame of 50000 x 50000 samples is accepted under a limit of 2500000000
  (`Protocol.LargeFramePasses`) and its last sample is looked for at a negative position
  (`Kernels.LargeFrameWraps`). Positions are right, and
  inside the frame, exactly up to 2^31 bytes (`Kernels.IndexedRightIff`). A launch stays in its
  frame exactly when, besides, both extents rounded up to whole blocks are at most 2^31
  (`Launches.StaysInsideIff`): in blocks of 3, a row of 2^31 - 1 samples has threads past its
  end whose own coordinate wraps, in blocks of 16 it has none (`Launches.LongRowLeaves`). `Device.SmallWorkFits` has 2^31 - 31 bytes as a size below which no
  canonical chain and no tile meets any of this.
- In parameterized mode a gaussian's weights go into an array of 25
  (`src/backend/cuda/cuda_backend.cpp:216`), and nothing checks that they fit. They do exactly
  when the radius is at most 12 (`Arguments.TapsHeldIff`), which the parser's bound on sigma
  ensures; past it the copy writes beyond the array, so such work is outside the model.
- Keys are compared in hundredths while baked kernels hold the value itself: two keys with
  parameters that are not in hundredths can be equal and generate different code
  (`Programs.UncanonicalKeysCollide`). Equal keys generate one program exactly when they are
  parameterized, or each pair of brightness or threshold parameters is equal and each pair
  of gaussians has equal weights (`SamePrograms.EqualKeysGenerateAlikeIff`); canonical chains,
  all the parser makes, are such (`Programs.EqualKeysGenerateAlike`).
- The queue's one-notification-per-item count is exact only while the queue is open
  (`Wakeups.ClosedRoomIsUncovered`, `Wakeups.NoLostNotify`).
- The comment at `src/net/server.cpp:46` calls the outbox's depth bounded in practice; the code
  keeps no bound, and none is claimed here.

## Model

| member | source | states |
|---|---|---|
| Samples.StoreLoad | src/backend/cpu/ops.cpp:10-14 | storing a loaded byte gives the byte back |
| Samples.StoreInverted | src/backend/cpu/ops.cpp:56-68 | inversion in registers stores what the integer inversion does |
| Samples.StoreIsNearest | src/backend/cuda/kernel_prelude.h:42-52 | a stored value is at most half a step from the clamped register |
| Chains.CanonicalParamsByHundredths | src/core/kernel_key.cpp:26-28 | canonical parameters are equal exactly when their hundredths are |
| Chains.RadiusBound | src/backend/cpu/ops.cpp:160-162 | the table bound on sigma keeps every blur radius at most 12 |
| Images.FromBytes | src/core/image.cpp:21-31 | refuses exactly bad dimensions and narrow strides; otherwise the rows of the source, packed |
| Images.PackedRowsArePrefix | src/core/image.cpp:27-29 | with packed rows the copy is the front of the source, unchanged |
| Images.IndexDecodes | src/core/image.cpp:9-19 | column, row and channel are recovered from a sample's position |
| Images.PositionIsIndex | src/core/image.cpp:18 | every position below the byte count is one sample's |
| Oracle.ApplyOpAt | src/backend/cpu/ops.cpp:180-196 | each sample of an op's output by column, row and channel, alpha kept |
| Oracle.ApplyChainConcat | src/backend/cpu/ops.cpp:198-204 | folding two chains one after the other is folding their concatenation |
| Oracle.ChainKeepsAlpha | src/backend/cpu/ops.cpp:20-29 | no chain changes the alpha of a four-channel image |
| Oracle.CopyAlpha | src/backend/cpu/ops.cpp:20-29 | keeps the finished colours and copies alpha: together the op's whole output |
| Oracle.ConvolveAt | src/backend/cpu/ops.cpp:103-128 | the blur loops compute the double sum of weighted clamped samples |
| Oracle.GradientAt | src/backend/cpu/ops.cpp:130-156 | the edge loops compute both gradient sums over clamped neighbours |
| Oracle.RunOp | src/backend/cpu/ops.cpp:180-196 | the loops over rows, columns and channels produce the op's image |
| Oracle.RunChain | src/backend/cpu/ops.cpp:198-204 | the loop over ops is the left-to-right fold |
| FusionPlan.PlanStages | src/backend/cuda/codegen.cpp:62-83 | the loop that grows stages computes the plan |
| FusionPlan.PlanKeepsChain | src/backend/cuda/codegen.cpp:62-83 | the stages flattened are the chain with its positions, nothing lost, repeated or reordered; pointwise ops only around stencils |
| FusionPlan.PlanSize | src/backend/cuda/codegen.cpp:76-80 | a non-empty chain has one stage, or as many stages as stencils |
| Kernels.EmitPointwise | src/backend/cuda/codegen.cpp:131-175 | emitting op by op gives the run's instructions |
| Kernels.ParamIndices | src/backend/cuda/codegen.cpp:87-97 | the parameterized ops' positions, in order |
| Kernels.IndexedRightIff | src/backend/cuda/codegen.cpp:200 | the emitted positions are right, and inside the frame, at every sample exactly when the frame has at most 2^31 bytes |
| Kernels.LargeFrameWraps | src/backend/cuda/codegen.cpp:200 | a frame of 50000 x 50000 samples whose last one is looked for at a negative position |
| FusionCorrect.OpExec | src/backend/cuda/codegen.cpp:131-175 | registers after one emitted op are the pixel of the scalar op's image |
| FusionCorrect.RunExec | src/backend/cuda/codegen.cpp:131-175 | registers after a run are the pixel of the scalar fold of its ops |
| FusionCorrect.NaiveFetches | src/backend/cuda/codegen.cpp:190-204 | with 32-bit coordinates and positions, the tap helper gives the clamped pixel of the image after the prologue, for frames of at most 2^31 bytes and neighbours within 32 bits |
| FusionCorrect.BlurSums | src/backend/cuda/codegen.cpp:318-333 | the emitted blur loops add up the scalar code's terms |
| FusionCorrect.SameCoefficient | src/backend/cuda/codegen.cpp:206-214 | the flat nine-entry tables, at (dy + 1) * 3 + (dx + 1), hold the scalar code's coefficients |
| FusionCorrect.EdgeSums | src/backend/cuda/codegen.cpp:335-349 | the emitted edge loops add up the scalar code's terms |
| FusionCorrect.StencilExec | src/backend/cuda/codegen.cpp:305-350 | stencil registers are the pixel of the scalar stencil's image |
| FusionCorrect.StagePixel | src/backend/cuda/codegen.cpp:353-437 | the bytes a thread stores are the pixel of the stage's whole fold, alpha included |
| Launches.OneThreadPerPixel | src/backend/cuda/cuda_backend.cpp:21-23 | every pixel belongs to exactly one thread of the grid |
| Launches.ThreadKnowsPixel | src/backend/cuda/codegen.cpp:409-410 | with padded extents of at most 2^31 the 32-bit coordinates of every thread, also past the edge, are its pixel's |
| Launches.StaysInsideIff | src/backend/cuda/codegen.cpp:409-413 | a launch touches only its frame's bytes exactly when the frame has at most 2^31 bytes and both padded extents are at most 2^31 |
| Launches.LongRowLeaves | src/backend/cuda/codegen.cpp:409-413 | a row of 2^31 - 1 samples is left by threads in blocks of 3, and by none in blocks of 16 |
| Launches.NeighboursRightIff | src/backend/cuda/codegen.cpp:318-349 | the neighbours of every pixel of an axis are computed right in 32 bits exactly when extent plus radius is at most 2^31 |
| Launches.EachCellLoadedOnce | src/backend/cuda/codegen.cpp:256-272 | the strided loop gives every tile cell to exactly one thread and round |
| Launches.TapInTile | src/backend/cuda/codegen.cpp:283-294 | every tap of a tiled thread reads inside the tile what the clamped tap would give |
| Launches.TileFitsShared | src/backend/cuda/codegen.cpp:245-254 | any accepted tile with any table-bounded radius fits 48 KiB |
| Launches.GridStores | src/backend/cuda/codegen.cpp:409-435 | under every order of threads the grid stores exactly the goal image |
| Launches.TailKept | src/backend/cuda/codegen.cpp:411 | no thread stores past the frame, as long as positions and padded extents fit 32 bits |
| Schedules.ScheduleExists | src/backend/cuda/cuda_backend.cpp:238-240 | every launch has a valid order of threads and loads |
| Schedules.CheckedIsValid | src/backend/cuda/codegen.cpp:245-277 | a finite search accepts exactly the valid schedules |
| Arguments.BuildArguments | src/backend/cuda/cuda_backend.cpp:216-236 | the loop lists this frame's own values in the order declared |
| Arguments.TapsHeldIff | src/backend/cuda/cuda_backend.cpp:216-229 | the argument array carries a gaussian's weights exactly when its radius is at most 12 |
| Arguments.BindingIsByName | src/backend/cuda/codegen.cpp:359-405 | binding the list to the declared names gives each name its own op's value |
| Arguments.StageBound | src/backend/cuda/cuda_backend.cpp:206-240 | every argument a stage names carries the parameter of that op of this frame, for chains whose weights fit the array |
| KernelKeys.KeysEqual | src/core/kernel_key.cpp:32-47 | the loop decides key equality, parameters counting in baked mode only |
| KernelKeys.KeyEqIsEquivalence | src/core/kernel_key.cpp:32-47 | key equality is reflexive, symmetric and transitive |
| KernelKeys.KeyBytesDecodable | src/core/kernel_key.cpp:49-66 | two keys spell the same bytes exactly when they are equal, in both modes, at every length |
| KernelKeys.HashKernelKey | src/core/kernel_key.cpp:12-66 | the hash is the byte-by-byte hash of the key's byte string |
| KernelKeys.EqualKeysHashAlike | src/core/kernel_key.cpp:32-66 | equal keys have equal hashes |
| Programs.EqualKeysGenerateAlike | src/backend/cuda/codegen.cpp:455-513 | equal keys generate one program: in parameterized mode always, in baked mode when both chains are canonical |
| Programs.UncanonicalKeysCollide | src/core/kernel_key.cpp:26-47 | a pair of equal baked keys that generate different programs |
| SamePrograms.EqualKeysGenerateAlikeIff | src/core/kernel_key.cpp:26-47 | equal keys generate one program exactly when they are parameterized, or brightness and threshold parameters agree pairwise and gaussians have equal weights |
| Programs.CanonicalProgramEmits | src/backend/cuda/codegen.cpp:441-513 | code generation refuses no canonical chain under a supported key |
| Programs.StageLaunch | src/backend/cuda/codegen.cpp:353-437 | launching a stage, tiled or naive, baked or parameterized, folds its ops over an image that fits 32-bit arithmetic |
| KernelCaches.KernelCache.Search | src/backend/cuda/kernel_cache.cpp:10-13 | the hashed search finds the entry key equality finds |
| KernelCaches.KernelCache.Get | src/backend/cuda/kernel_cache.cpp:9-32 | a hit changes nothing; a miss adds one entry and one count only if everything succeeds |
| KernelCaches.KernelCache.Clear | src/backend/cuda/kernel_cache.h:54-57 | entries go, the counter stays |
| KernelCaches.CompilesAreDistinctKeys | src/backend/cuda/kernel_cache.cpp:25-31 | the counter is the sum over lifetimes of distinct keys built; failures change nothing |
| KernelCaches.LookupSucceeds | src/backend/cuda/kernel_cache.cpp:9-32 | a lookup succeeds exactly when its key was built in this lifetime or builds now |
| KernelCaches.GetFindsEqual | src/backend/cuda/kernel_cache.cpp:9-32 | canonical or not, what a lookup returns is the program of a key equal to the one asked for |
| KernelCaches.GetIsTransparent | src/backend/cuda/kernel_cache.cpp:9-32 | one lookup returns what compiling afresh would, for parameterized keys and canonical baked ones |
| KernelCaches.RunsAreTransparent | src/backend/cuda/kernel_cache.cpp:9-32 | so does every lookup after any run of lookups and flushes |
| Device.Enqueue | src/backend/cuda/cuda_backend.cpp:193-249 | the launch loop queues copy in, one launch per stage with buffers swapped, copy out, done |
| Device.WorkInBounds | src/backend/cuda/cuda_backend.cpp:170-178 | no operation of a frame that fits its slot and 32-bit arithmetic leaves its buffers or its slot |
| Device.SmallWorkFits | src/backend/cuda/codegen.cpp:190-204 | work of a canonical chain on at most 2^31 - 31 bytes fits 32-bit arithmetic at every tile size |
| Device.WorkAdvances | src/backend/cuda/cuda_backend.cpp:200-248 | each executed operation carries the fold one further, under any schedule |
| Device.FrameComputesChain | src/backend/cuda/cuda_backend.cpp:185-249 | for every chain, a frame's operations, as long as they fit 32-bit arithmetic and the tap array, end with the fold of the chain in staging |
| Backends.StepKeepsHandles | src/backend/cuda/cuda_backend.cpp:98-122 | every backend step keeps each handle in the one place its fate says |
| Backends.HandlesAlwaysPartitioned | src/backend/cuda/cuda_backend.cpp:273-404 | over any run with any chains and any failures each handle is in exactly one place and completed at most once |
| BackendShapes.StepKeepsShape | src/backend/cuda/cuda_backend.cpp:98-344 | whatever chains are submitted, buffers keep their size, busy frames fit them, and cached kernels are their own keys' programs |
| BackendContent.StepKeepsContent | src/backend/cuda/cuda_backend.cpp:193-262 | streams hold the fold so far, and every ok completion the answer to its own ask, for frames of at most 2^31 - 31 bytes |
| BackendContent.StepKeepsHost | src/backend/cuda/cuda_backend.cpp:189-193 | inputs that may still be read stay those that were submitted |
| BackendContent.DrainedHasAnswer | src/backend/cuda/cuda_backend.cpp:318-330 | once its done event is reached a stream has the answer staged |
| BackendContent.PrewarmKeepsWarmed | src/backend/cuda/cuda_backend.cpp:81-86 | prewarming with canonical chains leaves a cache the whole system may start from |
| BackendHistory.TracedIsSound | src/backend/cuda/cuda_backend.cpp:98-404 | after any sequence of calls handles are in place and buffers fit; if all chains submitted were canonical, completions are right |
| BackendHistory.HistoryIsRun | src/backend/cuda/cuda_backend.cpp:98-404 | every sequence of calls is a run of the step system, handles partitioned |
| CudaBackends.CudaBackend.Create | src/backend/cuda/cuda_backend.cpp:27-46 | refuses exactly unsupported tiles and modes; zero streams means one |
| CudaBackends.CudaBackend.Submit | src/backend/cuda/cuda_backend.cpp:98-122 | for any chain: always issues the next handle, never leaves it launching; fails exactly for a malformed job, a chain code generation refuses, a missing buffer, a compiler or a driver error |
| CudaBackends.CudaBackend.Launch | src/backend/cuda/cuda_backend.cpp:124-271 | which jobs are refused, and that a launched one is on a stream or finished, while one that is not has a cause to fail |
| CudaBackends.CanonicalNeverRefused | src/backend/cuda/codegen.cpp:441-513 | code generation refuses no canonical chain a job can carry |
| CudaBackends.CudaBackend.ClaimStream | src/backend/cuda/cuda_backend.cpp:273-298 | ends with an idle stream or a driver error |
| CudaBackends.CudaBackend.RetireReadyStreams | src/backend/cuda/cuda_backend.cpp:300-332 | a full sweep frees every stream whose event was reached; an error partway loses nothing |
| CudaBackends.CudaBackend.PollCompletions | src/backend/cuda/cuda_backend.cpp:334-344 | returns every completion not yet reported, once, recovering on a driver error |
| CudaBackends.CudaBackend.RecreateContext | src/backend/cuda/cuda_backend.cpp:364-395 | every busy frame is failed before anything goes; no completion is lost; what comes back is idle |
| CudaBackends.CudaBackend.FailJob | src/backend/cuda/cuda_backend.cpp:397-404 | the launching handle gets one error completion, with a recovery after a driver error |
| CudaBackends.TouchableIsInBounds | src/backend/cuda/codegen.cpp:409-413 | the sizes checked before an operation executes are exactly what keeps it inside its buffers, under every block size |
| SlotPools.SlotPool.Create | src/util/slot_pool.cpp:12-29 | refuses exactly an empty block; a cap of zero means the count |
| SlotPools.SlotPool.Claim | src/util/slot_pool.cpp:39-53 | nothing from a closed pool, otherwise a free slot moved to the owner |
| SlotPools.SlotPool.Release | src/util/slot_pool.cpp:55-73 | errs exactly for a slot not claimed, otherwise gives it back |
| SlotPools.SlotPool.Slot | src/util/slot_pool.cpp:75-80 | errs exactly past the end, otherwise an offset inside the block |
| SlotPools.SlotPool.Close | src/util/slot_pool.cpp:82-88 | closes and changes nothing else |
| SlotPools.ClaimKeepsInv | src/util/slot_pool.cpp:31-53 | the free list stays exact, counts real, the cap respected |
| SlotPools.ReleaseKeepsInv | src/util/slot_pool.cpp:55-67 | the same for a release |
| SlotPools.SlotsDisjoint | src/util/slot_pool.cpp:79 | two slots share no byte |
| BoundedQueues.BoundedQueue.Push | include/imgjit/util/bounded_queue.h:39-50 | appends, or fails and changes nothing when closed |
| BoundedQueues.BoundedQueue.Pop | include/imgjit/util/bounded_queue.h:54-65 | takes the oldest item; fails only when closed and drained |
| BoundedQueues.BoundedQueue.TryPop | include/imgjit/util/bounded_queue.h:69-79 | takes the oldest item; fails only when empty |
| BoundedQueues.BoundedQueue.Close | include/imgjit/util/bounded_queue.h:81-88 | discards nothing |
| Connections.Connection.Push | src/net/server.cpp:53-62 | a closed outbox drops the response, an open one keeps it in order |
| Connections.Connection.Pop | src/net/server.cpp:67-76 | responses come out in order; closing discards none |
| Connections.Connection.JobSubmitted | src/net/server.cpp:97-100 | one more outstanding |
| Connections.Connection.JobRetired | src/net/server.cpp:102-106 | one less outstanding, and the outbox closes exactly when the reader is done and none is left |
| Connections.Connection.ReaderFinished | src/net/server.cpp:108-112 | the reader is done, and the outbox closes exactly when none is outstanding |
| ServerPlaces.WorkerKeepsPlaces | src/net/server.cpp:331-434 | every worker step keeps queue, hand, in-flight table, handles and phases in agreement |
| ServerPlaces.NeverUnknown | src/net/server.cpp:404-409 | the worker never meets a completion it is not waiting for |
| ServerSlots.RetiredHoldsSlot | src/net/server.cpp:426-430 | the release of a retired frame never meets its error |
| ServerSlots.WorkerKeepsSlots | src/net/server.cpp:370-434 | worker steps keep every slot with its one holder |
| ServerSlots.ReaderKeepsSlots | src/net/server.cpp:543-571 | so do reader steps |
| ServerBytes.ReaderKeepsBytes | src/net/server.cpp:543-553 | a slot's bytes are what was received, and a frame's payload stays while it holds its slot |
| ServerAnswers.OutboxOpen | src/net/server.cpp:51-132 | no push meets a closed outbox |
| ServerAnswers.WorkerKeepsConns | src/net/server.cpp:97-127 | outstanding counts are real, and outboxes close exactly when done |
| ServerAnswers.WorkerKeepsAnswers | src/net/server.cpp:404-434 | every outbox entry belongs to one frame or rejection and back |
| ServerAnswers.ReaderKeepsAnswers | src/net/server.cpp:522-538 | the same when a header is rejected |
| ServerRuns.StepKeepsInv | src/net/server.cpp:331-572 | every step of every thread keeps the whole invariant |
| ServerRuns.RunKeepsInv | src/net/server.cpp:257-572 | it holds in every reachable state |
| ServerRuns.PushNeverFails | src/net/server.cpp:566-570 | queue.push never fails for a live reader |
| ServerRuns.SlotsConserved | src/net/server.cpp:370-434 | each slot is in exactly one of five places; owner counts are real and within the cap |
| ServerRuns.AnsweredHasResponse | src/net/server.cpp:404-434 | a frame has a response, in its own connection's outbox and under its number, exactly when the worker has answered it |
| ServerRuns.RejectedHasResponse | src/net/server.cpp:522-526 | every rejected header has its error response in its connection's outbox |
| ServerRuns.OneResponseEach | src/net/server.cpp:404-434 | no frame and no rejected header has two responses; each is in its own connection's outbox under its own number and, for a rejection, its own status |
| ServerRuns.JoinedMeansDone | src/net/server.cpp:283-298 | once connections are joined every frame and every rejected header has its response, all are taken by the writers, queue and table are empty and every slot is in the free list |
| Systems.PollMeetsContract | src/net/server.cpp:353-356 | what a poll reports is what the worker awaits, once each |
| Systems.ReceiveKeepsHost | src/net/server.cpp:548-553 | receiving changes no input the backend may still read |
| SystemRuns.FrameIsAsked | src/net/server.cpp:377-383 | what the backend is asked about a frame is that frame's image |
| SystemRuns.SystemStepKeepsInv | src/net/server.cpp:331-434 | every step of server, backend and GPU together keeps the invariant |
| SystemRuns.OkResponseIsTrue | src/net/server.cpp:404-434 | under any limit, an ok response belongs to a frame of its connection, under its number, and is its chain folded over its payload if that has at most 2^31 - 31 bytes |
| SystemRuns.OkResponsesAreTrue | src/net/server.cpp:404-434 | with a payload limit of at most 2^31 - 31 bytes every ok response in every run is its frame's chain folded over its payload |
| Wires.ReaderFollows | src/net/server.cpp:486-572 | whatever the reader does next, its verdicts and those of the bytes it has not read stay the verdicts of all its bytes |
| Wires.HeaderNeedsNoCut | src/net/server.cpp:490-538 | on any bytes a reader at a header has a step that follows them |
| Wires.ReaderNeedsNoCut | src/net/server.cpp:490-572 | in every sound state a reader that has its slot and its room in the queue has a step that follows its bytes |
| Wires.ReadersFollowBytes | src/net/server.cpp:486-572 | in every run a connection's frames and rejections are, in order, a start of the verdicts of its peer's bytes, and all of them when its reader was not cut short |
| Wires.VerdictsAnswered | src/net/server.cpp:283-298 | once a connection is joined its responses are one to one with its verdicts, each the right one |
| Wires.ClientIsServed | src/net/server.cpp:404-572 | a client's well-framed requests, up to the first that closes, have been written one response each, an error status or the chain folded over the image sent |
| BackendProgress.CanExecute | src/backend/cuda/cuda_backend.cpp:189-192 | a busy stream's next operation is in bounds and some schedule exists for it, for a frame of at most 2^31 - 31 bytes |
| BackendProgress.CanRetire | src/backend/cuda/cuda_backend.cpp:300-331 | a busy stream that executed everything can be retired |
| Draining.SystemDrives | src/net/server.cpp:343-367 | while a frame waits, one step of the worker or the GPU leaves less to do |
| Draining.SystemDrains | src/net/server.cpp:331-434 | from every reachable state worker and GPU alone free and answer every frame handed over, if those that wait have at most 2^31 - 31 bytes |
| Lowering.StepLowers | src/net/server.cpp:331-434 | every step of the worker or the GPU other than a poll that finds nothing or a driver fault leaves less to do |
| EveryRun.EndlessRunIdles | src/net/server.cpp:343-367 | every endless run of worker and GPU steps alone has a poll that finds nothing or a fault again and again |
| Draining.NeverStuck | src/net/server.cpp:331-434 | while a frame handed over is unanswered, a step that is not idle can be taken |
| Draining.LaunchGoesOn | src/backend/cuda/cuda_backend.cpp:124-298 | a launch under way goes on: it fails only without a context, for a malformed job, for kernels it could not have or with no stream; otherwise it finishes, looks up its kernels once, takes an idle stream or has the busy ones go on |
| EveryRun.FairRunDrains | src/net/server.cpp:331-434 | every endless fault-free run of all threads in which no more frames are handed over answers all of them, if the worker and the GPU go on while a frame waits and a poll in vain is followed by backend work there is |
| Stopping.ReadersLeave | src/net/server.cpp:270-281 | with the pool closed every reader can leave, if unanswered frames have at most 2^31 - 31 bytes |
| Stopping.WritersLeave | src/net/server.cpp:475-476 | then every writer can drain its outbox and exit |
| Stopping.StopEnds | src/net/server.cpp:257-302 | from every reachable state stop() can end with all threads joined, if unanswered frames have at most 2^31 - 31 bytes |
| Wakeups.NoLostClaim | src/util/slot_pool.cpp:39-88 | nobody is parked un-notified who could pass, unless a notify_all is on its way |
| Wakeups.NoLostNotify | include/imgjit/util/bounded_queue.h:39-88 | in an open queue parked producers and consumers are covered by notifications under way; in a closed one by a notify_all |
| Wakeups.ClosedRoomIsUncovered | include/imgjit/util/bounded_queue.h:81-88 | in a closed queue the count can fall short |
| Texts.Trim | src/core/op_chain.cpp:10-19 | the two loops compute the trimmed text |
| Texts.TrimTakesSpaces | src/core/op_chain.cpp:10-19 | trimming takes all spaces off both ends and nothing else |
| Numerals.FormatParam | src/core/op_chain.cpp:57-68 | the text of a parameter in hundredths |
| Numerals.ParamRoundTrips | src/core/op_chain.cpp:40-83 | a printed canonical parameter is read back as itself |
| Numerals.QuantizedIsCanonical | src/core/op_chain.cpp:80-83 | a quantized parameter in range is canonical |
| OpChainText.FindSpec | src/core/op_chain.cpp:21-28 | finds the row of a name |
| OpChainText.NamesIdentify | src/core/op_chain.cpp:21-28 | a name finds exactly the kind it names |
| OpChainText.ParseOpChain | src/core/op_chain.cpp:85-142 | the loop ends on every input and accepts exactly when every piece is an op |
| OpChainText.ParseIsCanonical | src/core/op_chain.cpp:85-142 | accepted chains are canonical, one op per piece, in order, repeats kept |
| OpChainText.CanonicalString | src/core/op_chain.cpp:144-158 | the loop prints the canonical text |
| OpChainText.ParseUndoesPrint | src/core/op_chain.cpp:85-158 | parsing the canonical text of a canonical chain gives it back |
| OpChainText.CanonicalTextIdentifies | src/core/op_chain.cpp:85-158 | two accepted texts have one canonical text exactly when they have one chain |
| Protocol.EncodeRequest | src/net/protocol.cpp:87-99 | fills the 25 bytes field by field |
| Protocol.EncodeResponse | src/net/protocol.cpp:101-112 | fills the 23 bytes field by field |
| Protocol.RequestDecodes | src/net/protocol.cpp:114-129 | decoding an encoded request header gives it back |
| Protocol.RequestEncodes | src/net/protocol.cpp:87-129 | exactly the 25-byte strings decode, each to the header it encodes |
| Protocol.ResponseDecodes | src/net/protocol.cpp:131-145 | the same for responses |
| Protocol.ResponseEncodes | src/net/protocol.cpp:101-145 | exactly the 23-byte strings decode, each to the header it encodes |
| Protocol.ServedFrameIsExact | src/net/protocol.cpp:147-174 | past validation, narrowing and the dimension check the product is exact and fits the slot |
| Protocol.WrapPasses | src/net/protocol.cpp:167-172 | a header whose product wraps passes validation |
| Protocol.LargeFramePasses | src/net/protocol.cpp:147-174 | a frame of 50000 x 50000 samples passes validation and narrowing under any limit of at least its size |
| Protocol.ExactIffNoWrap | src/net/protocol.cpp:165-172 | under any limit a validated product is exact just when width times height is at most (2^64 - 1) / channels |
| Protocol.ExactIffNarrow | src/net/server.cpp:560-562 | with a limit an int holds, a validated product is exact just when it narrows well |
| Protocol.ValidateIsFirstFailure | src/net/protocol.cpp:147-174 | accepted exactly when every check passes; otherwise the status of the first check that fails, in the protocol's order |
| Protocol.DrainIsBounded | src/net/protocol.cpp:46-65 | the connection closes exactly when the payload length cannot be trusted or is over the limit |
| Framing.Socket.ReadExact | src/net/socket.cpp:149-167 | exactly the bytes asked for over any short reads; fails only at the end or on an error |
| Framing.Socket.DrainExactly | src/net/socket.cpp:186-198 | discards exactly that many bytes |
| Framing.ReaderLoop | src/net/server.cpp:486-572 | the verdicts the bytes call for; a dead connection only cuts them short |
| Framing.ReaderFindsNextFrame | src/net/server.cpp:490-538 | after a served or drained frame the reader is at the next frame's first byte |
| Framing.FramesAnsweredOneForOne | src/net/server.cpp:490-538 | frames are answered one for one up to the first closing error |
| Framing.AnsweredIsFirstClose | src/net/protocol.cpp:46-65 | only the last answered frame can be a closing one |

## Left out

- IEEE rounding, fused multiply-add and the one-step tolerance between CPU and GPU: samples and registers are exact numbers, because the claims are about fusion, tiling, caching and concurrency.
- The values of the Gaussian weights and of the square root: parameters, the same on both sides.
- `strtof`'s exponents, hexadecimal floats, infinities and locale: the number grammar is a sign, digits and a point, which covers everything the printer writes.
- `lround` of values outside 64 bits: the quantizer rounds to an unbounded integer, so such a parameter is out of its table bounds.
- CUDA, NVRTC and PTX text, and the RAII wrappers: emitted kernels are values with an evaluator, and foreign calls are outcomes.
- A frame's queueing on a stream is one step; the GPU starts on it only when all of it is queued. A driver error partway leaves the buffers in any state until the rebuild destroys them.
- Construction of the backend and `allocate_slots` are one operation, with the slot size in the configuration; `prewarm` is a function on the state a system starts from, and its failures stop the start.
- The worker's loop and the reader's claim, fill and push are steps of `server.dfy` rather than methods, because other threads act between them; `framing.dfy` has the reader's byte-level loop as a method, and `wires.dfy` holds the steps to the same verdicts.
- The worker's handler for a backend that throws out of `submit` (src/net/server.cpp:388-401): the modelled backend never does.
- Sockets, accepting, poll timeouts, the writer's socket and file output, PNG files, the command-line tools, the benchmark and the notebook.
- Timing statistics and `max_in_flight`, `high_water` beyond its definition, and allocation failure.
- Any bound on an outbox's depth, since the code keeps none.
- Whether a context rebuild succeeds: both outcomes are covered, and only that later frames are answered is claimed.
- `Client`, `CpuBackend` and the accessors: they would add only easy members.
- 64-bit wrap-around of handles, submit orders and byte counts past 2^64: these counters are unbounded here.
- What a kernel does once a position leaves its frame: such a launch is undefined in the program too, so a step of the model is taken only in bounds, and `OkResponseIsTrue` says nothing of the image of a frame larger than 2^31 - 31 bytes with a non-empty chain.
- Radii past the range of `int`, for a sigma no parser accepts: radii are unbounded numbers.
- Draining.SystemDrains: it says that a draining run exists; `EveryRun.FairRunDrains` says that every fair one drains. A waiting frame of more than 2^31 - 31 bytes with a non-empty chain is left out, as its launch may be undefined.
- EveryRun.FairRunDrains: that the driver answers, and that the GPU and the sweep of a poll get their turns, are its fairness assumptions; the scheduler is not modelled.
- Stopping.StopEnds: it says that an ending run exists, since a peer may keep its reader busy with any number of bytes before `stop()` shuts the socket. The same frames are left out.
- CudaBackends.CudaBackend.Submit: in parameterized mode it asks that every gaussian's weights fit the argument array, because past it the program writes beyond the array.
- Wires.ClientIsServed: says nothing of the order of responses, which the program does not promise, nor of the bytes the writer puts on the socket; a rejected frame is drained in the step that rejects it.
