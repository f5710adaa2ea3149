# Verified model of the CUDA crate's stateful core

This project models six stateful components of `ironaccelerator-cuda` and proves what they
promise, for every input, every run and every interleaving:

- the pinned staging pipeline of a stream, with the copy pool it fans its host copies out to;
- the device-memory pool `MemPool`;
- the get-or-create caches: library handles, the two-level kernel cache, the FFT plan cache;
- the profiler's event buffer and its trace writer;
- the pinned host-memory pool.

Each component has the same shape. A `...Model` module is a labelled step system: one label per
driver call, lock section or GPU action, so that a run is a sequence of labels and every
schedule is every sequence of enabled labels. A failing driver call is a label too. The
`...Proofs`, `...Invariant`, `...Runs` and `...Theorems` modules prove what every step keeps and
what all runs have in common. A class then has the source's own form: fields that its methods
update in place, the source's loops and branches, and a ghost `trace` that `Valid()` ties to a
run of the step system, so that every theorem about runs holds of the object. Where the source
holds no lock, the class's methods let the other threads run (`Interlude`, `GpuRuns`,
`WorkersRun`). What the outside world answers is a parameter: the stream's `driver` answers each
driver call, `create`, `gives`, `works` and `luck` the others, and the contracts say what each
answer leads to. Lemmas switch automatic induction off, so a proof rests on what its body says.

## Driver axioms

The step systems assume this of the driver and the operating system and nothing else:

- a stream is a FIFO queue; a queued copy reads a pinned chunk when it executes;
- a query reports an idle stream only when nothing is queued;
- a wait on an event returns after the event's latest record has executed;
- live allocations, live library handles and living streams' handles are pairwise distinct, and
  freed ones may be given out again;
- a failing enqueue enqueues nothing; an asynchronous copy from pageable memory takes its own
  copy of the source before it returns;
- a blocking copy on a legacy-ordered stream runs after everything queued on it; a failing one
  writes nothing;
- a rename moves a name in one step, and an open file goes on being written through its handle; a
  write may leave any prefix of the data; reading a file is one step;
- whether an allocation of zero pinned bytes is granted is left open;
- compilation is deterministic; an object behind an `Arc` lives exactly as long as a reference.

## Results that differ from what the code or its comments say

- A failing `cuEventRecord` (drv.rs:1343-1346) returns an error after the chunk's copy has been
  queued, with the slot unarmed; and `Stream::drop` (drv.rs:857-858) frees the ring whether or not
  its synchronisation succeeded. `RingSafetyExact` says over all runs when that is harmless:
  exactly when the copy, or every copy, has already executed. `RecordFailureBreaksRing`,
  `RecordFailureCorrupts` and `FailedDropFreesUnderCopy` are the runs in which it is not: a pending
  chunk is overwritten, the device ends up with a wrong byte, the ring is freed under a copy. The
  refinement theorems hold in all runs with the tainted chunk excepted, and in harmless runs
  without exception (`HarmlessRunIsMemcpy`).
- Comments at drv.rs:399 speak of 4 MiB chunks; the code has 2 MiB and four slots. The model
  follows the code.
- The comment above `copy_to_host_sync` (drv.rs:1453-1457) promises a staged path; the code
  always takes the blocking one.
- The comment in `copy_to_host_blocking` (drv.rs:1441-1443) calls faulting the destination in
  free of observable effect. That holds of a copy that succeeds; when the driver refuses it, page
  starts of a buffer of 8 MiB or more may be left zero, and `CopyToHostBlocking` says so.
- `MemPool` recycles blocks across element types. Powers of two, the sizes of every built-in
  `Repr` type, mix safely (`Capacity`); `CapacityExact` says exactly which sizes do, and
  `OddSizesOverflow` gives a run in which 12-byte elements and bytes do not.
- The kernel cache's promise of identity holds always; its promise of the right image holds if
  and only if the hashes in the key decide what is compiled, with one writer per file.
  `TwoWritersTruncate` shows two writers and `OneWriterNeeded` that the condition is exact.
- `chrome_trace` ends its array with a comma exactly when something was written and the last
  buffered event is still pending. `TraceReadsBack` states both directions.
- `PinnedPool::acquire` guarantees the capacity if and only if the request is at most 2^34; if the
  driver grants zero bytes, at most 2^33, because a request above 2^63 rounds to zero in a release
  build (a debug build panics) and its slab lands in the last bucket.

## Model

| member | source | states |
|---|---|---|
| `StageTheorems.DrainedDeviceIsReference` | crates/ironaccelerator-cuda/src/drv.rs:1312-1354 | over every schedule of host steps, GPU steps and failures: once the queue is empty, every device address holds what a plain memcpy of each accepted chunk would have left, except in chunks whose event record failed |
| `StageTheorems.StagedCopyIsMemcpy` | crates/ironaccelerator-cuda/src/drv.rs:1307-1354 | a staged copy that returned Ok leaves exactly the source bytes in the destination whenever the queue is next empty, whatever ran before on the same ring and whatever the caller does with the source afterwards, as long as nothing else writes there |
| `StageTheorems.SourceAsOfCall` | crates/ironaccelerator-cuda/src/drv.rs:1307-1312 | the bytes a staged copy works with are those its source held when the call was made |
| `StageTheorems.HeldIsRead` | crates/ironaccelerator-cuda/src/drv.rs:804-814 | with an empty queue a range that the reference holds is what is read from the device |
| `StageTheorems.HoldsRun` | crates/ironaccelerator-cuda/src/drv.rs:1317-1354 | data written to a range stays there through any run that does not write the range |
| `StageTheorems.NoTaintWithoutRecordFailure` | crates/ironaccelerator-cuda/src/drv.rs:1343-1346 | the exception of the refinement is empty in every run without a failed event record |
| `RingSafety.RingSafetyExact` | crates/ironaccelerator-cuda/src/drv.rs:1317-1354 | over every run, with any failures: the ring is safe in every state along the run if and only if no step is harmful; harmful are an event record that fails while the chunk's copy is still queued and a drop whose synchronisation fails while any copy out of the ring is |
| `RingSafety.StepExact` | crates/ironaccelerator-cuda/src/drv.rs:1343-1347 | one step out of a safe state stays safe if and only if it is not harmful |
| `RingSafety.RingIsSafe` | crates/ironaccelerator-cuda/src/drv.rs:608-629 | in every state that a harmless run reaches, across calls: an unarmed slot has no pending copy, an armed slot at most one, followed by its own record |
| `RingSafety.FourPending` | crates/ironaccelerator-cuda/src/drv.rs:626-629 | at most 4 copies out of the ring are ever pending in a harmless run |
| `RingSafety.SlotInHandUnread` | crates/ironaccelerator-cuda/src/drv.rs:1323-1333 | in a harmless run no pending copy reads the slot the host is writing |
| `RingSafety.FreedRingUnread` | crates/ironaccelerator-cuda/src/drv.rs:851-871 | in a harmless run no pending copy reads a slot of a destroyed ring |
| `RingSafety.HarmlessRunIsMemcpy` | crates/ironaccelerator-cuda/src/drv.rs:1312-1354 | after a harmless run the drained device equals the memcpy reference at every address, failed records included |
| `RingSafety.RecordFailureBreaksRing` | crates/ironaccelerator-cuda/src/drv.rs:1328-1347 | a concrete run: one failed record, and the next call may overwrite a chunk that a pending copy still reads |
| `RingSafety.RecordFailureCorrupts` | crates/ironaccelerator-cuda/src/drv.rs:1328-1347 | the same run continued: with an empty queue the device holds the second call's byte where a memcpy would have left the first one's |
| `RingSafety.FailedDropFreesUnderCopy` | crates/ironaccelerator-cuda/src/drv.rs:851-871 | a concrete run: the ignored synchronisation fails and the ring is freed while a copy out of it is queued |
| `StageProofs.StepInv` | crates/ironaccelerator-cuda/src/drv.rs:1317-1352 | every host step, GPU step and failure keeps the pipeline invariant: what the queue would leave on the device is the reference, armed slots are fenced, the chunk in hand is intact |
| `StageProofs.DrainAt` | crates/ironaccelerator-cuda/src/drv.rs:1334-1342 | a drained address holds what the last queued writer of it carries, or what it held before |
| `StageProofs.DrainHead` | crates/ironaccelerator-cuda/src/drv.rs:1334-1342 | executing the head of the queue does not change what the whole queue leaves |
| `StageProofs.UnreadWhenRecorded` | crates/ironaccelerator-cuda/src/drv.rs:1326-1332 | when an armed slot's record is no longer queued, no pending copy reads the slot |
| `Stream.Stream.SyncEvent` | crates/ironaccelerator-cuda/src/drv.rs:1326-1332 | one driver call, whose answer is the result; a successful wait returns after the slot's latest record has run |
| `Stream.Stream.Drain` | crates/ironaccelerator-cuda/src/drv.rs:804-814 | a poll, and the wait only when it does not report an idle stream; it reports one when the driver answers and nothing was queued; success leaves the queue empty, failure is the failed wait |
| `Stream.Stream.Synchronize` | crates/ironaccelerator-cuda/src/drv.rs:783-790 | one driver call, whose answer is the result; success leaves the queue empty |
| `Stream.Stream.WaitForSlot` | crates/ironaccelerator-cuda/src/drv.rs:1326-1332 | the event is waited for exactly when the slot is armed, and the slot is written only when unarmed or after its event |
| `Stream.Stream.FillSlot` | crates/ironaccelerator-cuda/src/drv.rs:1333-1333 | the host copy of a chunk is steps of the model that end with the chunk in the slot, whatever the copy pool does |
| `Stream.Stream.SubmitSlot` | crates/ironaccelerator-cuda/src/drv.rs:1334-1342 | one driver call: answered, the chunk is queued and enters the reference; refused, nothing is queued |
| `Stream.Stream.MarkSlot` | crates/ironaccelerator-cuda/src/drv.rs:1343-1351 | one driver call: answered, the slot is armed and the cursor advances; refused, the chunk is tainted |
| `Stream.Stream.CopyFromHostStaged` | crates/ironaccelerator-cuda/src/drv.rs:1312-1354 | the loop makes the calls of the staged plan up to the first one refused, whose error it returns, and passes when none is; the reference changes by a memcpy of the bytes handed over, all of them on success, and taint appears only when an event record failed |
| `Stream.Stream.CopyFromHost` | crates/ironaccelerator-cuda/src/drv.rs:1276-1306 | a length mismatch makes no call and changes nothing; an empty buffer passes with no call; from 4 MiB up the staged calls and below one asynchronous call, failing exactly with the first call refused; on success the reference is a memcpy of the whole source |
| `Stream.Stream.CopyFromHostBlocking` | crates/ironaccelerator-cuda/src/drv.rs:1365-1392 | a mismatch or an empty buffer changes nothing; otherwise the drain, unless the stream is legacy ordered, and one blocking copy, failing exactly with the first call refused; on success the reference is the memcpy and the stream idle, on failure the reference is unchanged |
| `Stream.Stream.CopyFromHostSync` | crates/ironaccelerator-cuda/src/drv.rs:1400-1414 | from 4 MiB up the staged calls and the wait, below the blocking path, failing exactly with the first call refused; on success the device holds the source and, unless the buffer is empty, the stream is idle, for both kinds of stream; otherwise the reference has changed by the bytes sent |
| `Stream.Stream.CopyToHostBlocking` | crates/ironaccelerator-cuda/src/drv.rs:1424-1451 | on success the destination holds everything written before by whatever path, except where a failed record tainted it, and the stream is idle; it fails exactly on a mismatch or with the first call refused, and then leaves every byte as it was or, at page starts it has faulted in, zero |
| `Stream.Stream.CopyToHostSync` | crates/ironaccelerator-cuda/src/drv.rs:1458-1480 | read your writes: the same for the synchronous read, which always takes the blocking path |
| `Stream.Stream.LandedIsRead` | crates/ironaccelerator-cuda/src/drv.rs:1400-1414 | bytes that have just landed are on the device itself once the queue is empty |
| `Stream.Stream.IdleIsReference` | crates/ironaccelerator-cuda/src/drv.rs:1424-1451 | an idle stream's device memory is the reference outside the tainted addresses |
| `Stream.Stream.Destroy` | crates/ironaccelerator-cuda/src/drv.rs:851-871 | the one driver call is the synchronisation and its answer decides the step: the last step is the drop with that answer, and when it was answered the queue is empty, which makes the drop harmless |
| `DriverCalls.PassExact` | crates/ironaccelerator-cuda/src/drv.rs:1317-1354 | a copy passes exactly when no answer of the driver ends it, and then has made every call of its plan |
| `DriverCalls.FailExact` | crates/ironaccelerator-cuda/src/drv.rs:1326-1347 | otherwise it stops right after the first call whose answer ends it and returns that call's error |
| `DriverCalls.WaitsBeforeReuse` | crates/ironaccelerator-cuda/src/drv.rs:1320-1350 | at any place of any staged copy, of any length and from any state of the ring: right before a chunk is copied out of a slot that was armed at the start or recorded by the copy itself, that slot's event is waited for |
| `Slices.PlanPartitions` | crates/ironaccelerator-cuda/src/drv.rs:508-531 | for any number of workers and any failing sends: slices start on pages, are disjoint, lie strictly inside the buffer and with the submitter's remainder cover it |
| `Slices.SubmitterShare` | crates/ironaccelerator-cuda/src/drv.rs:506-533 | with no failing send the submitter copies at most one step plus one byte per worker |
| `ForkJoin.SomeUnfinished` | crates/ironaccelerator-cuda/src/drv.rs:535-539 | the counter is positive exactly while some sent job is unfinished, so the wait ends only when all are done |
| `ForkJoin.PlanHitsAll` | crates/ironaccelerator-cuda/src/drv.rs:574-600 | the workers' pages and the submitter's pages are together the pages of the buffer, counted exactly |
| `ForkJoin.Call.Send` | crates/ironaccelerator-cuda/src/drv.rs:512-531 | the jobs sent are the plan; a failing send takes its slice back |
| `ForkJoin.Call.WorkerStep` | crates/ironaccelerator-cuda/src/drv.rs:471-487 | any unfinished worker may move next: it writes its own slice only, then decrements the counter |
| `ForkJoin.Call.Join` | crates/ironaccelerator-cuda/src/drv.rs:535-539 | when the wait returns every job is done |
| `ForkJoin.Call.TouchPages` | crates/ironaccelerator-cuda/src/drv.rs:473-479 | the loop writes zero to every page start of its range, once each, and nothing else |
| `WideCopy.WideCopy` | crates/ironaccelerator-cuda/src/drv.rs:501-540 | a memcpy, for any worker count, any failing sends and any order of the workers |
| `WideCopy.Prefault` | crates/ironaccelerator-cuda/src/drv.rs:559-606 | from 8 MiB up every page start is zeroed exactly once and no other byte changes; below, nothing is written |
| `WideCopy.Landed` | crates/ironaccelerator-cuda/src/drv.rs:501-540 | with every worker done, their slices and the submitter's share are the whole source |
| `WideCopy.PageOnce` | crates/ironaccelerator-cuda/src/drv.rs:559-606 | the workers' writes and the submitter's together touch each page start once and nothing else |
| `PoolSizes.BucketIsLeast` | crates/ironaccelerator-cuda/src/pool.rs:136-150 | the bucket is the least power of two that holds both the request and 1 KiB |
| `PoolSizes.BucketNone` | crates/ironaccelerator-cuda/src/pool.rs:136-145 | there is no bucket exactly for 0 bytes and above 2^28 |
| `PoolSizes.BucketRoundTrip` | crates/ironaccelerator-cuda/src/pool.rs:136-150 | a bucket's own size is served from that bucket |
| `PoolSizes.Pow2Exact` | crates/ironaccelerator-cuda/src/pool.rs:253-257 | for a power-of-two element size that fits the request it always does |
| `PoolProofs.OwnedStep` | crates/ironaccelerator-cuda/src/pool.rs:210-430 | every step of every thread keeps each live block in exactly one place and frees nothing twice |
| `PoolProofs.FreeAllExact` | crates/ironaccelerator-cuda/src/pool.rs:302-330 | freeing a list of distinct live blocks frees exactly those, once each |
| `PoolProofs.EmptiedExact` | crates/ironaccelerator-cuda/src/pool.rs:299-331 | shrink frees every cached block and no other |
| `PoolProofs.SizedStep` | crates/ironaccelerator-cuda/src/pool.rs:218-264 | every step keeps cached blocks within their bucket's bounds and buffers within their block, for any element sizes whose driver blocks respect the bounds |
| `PoolInvariant.StepInv` | crates/ironaccelerator-cuda/src/pool.rs:210-430 | every step of every thread keeps ownership, the exact reference count, the stack limits and the drops in progress |
| `PoolRuns.Conservation` | crates/ironaccelerator-cuda/src/pool.rs:210-275 | over every multi-threaded run: each live block has exactly one owner, nothing is freed twice, and the stream's reference count is 1 plus the outstanding buffers |
| `PoolRuns.EmptiedPoolKeepsNothing` | crates/ironaccelerator-cuda/src/pool.rs:299-340 | after shrink or drop the live blocks are exactly those that clients took out |
| `PoolCapacity.Capacity` | crates/ironaccelerator-cuda/src/pool.rs:218-264 | in every run with power-of-two element sizes every cached block has exactly its bucket's size and every buffer room for its elements, whatever type and thread had the block before |
| `PoolCapacity.CapacityExact` | crates/ironaccelerator-cuda/src/pool.rs:218-264 | for any set of element sizes: every buffer of every run has room for its elements if and only if any two sizes that can share a bucket get driver blocks of one size for it |
| `PoolCapacity.MixedSizesOverflow` | crates/ironaccelerator-cuda/src/pool.rs:221-263 | two sizes that do not: a run in which the second client's elements do not fit the recycled block |
| `PoolCapacity.OddSizesOverflow` | crates/ironaccelerator-cuda/src/pool.rs:221-257 | the concrete run with 12-byte elements and bytes |
| `PoolCapacity.RequestFits` | crates/ironaccelerator-cuda/src/pool.rs:253-257 | a driver block made for a request holds it, whatever the element size |
| `PoolRuns.Footprint` | crates/ironaccelerator-cuda/src/pool.rs:401-424 | cached bytes never exceed (4 T + max_per_bucket)(2^29 - 2^10), T being the threads that touched the pool, whatever the element sizes |
| `PoolTraffic.DriverTraffic` | crates/ironaccelerator-cuda/src/pool.rs:221-263 | one thread, one bucket: when the peak fits the caches, the driver is asked at most peak times and nothing is ever freed |
| `PoolThreads.OthersKeep` | crates/ironaccelerator-cuda/src/pool.rs:210-430 | whatever the other threads do while a thread is inside the pool without a lock, it finds its own stacks, its place and a buffer it is dropping as it left them |
| `MemPool.MemPool.Interlude` | crates/ironaccelerator-cuda/src/pool.rs:221-263 | between two locks the other threads may take any steps of theirs, and the object stays a run of the step system |
| `MemPool.MemPool.Alloc` | crates/ironaccelerator-cuda/src/pool.rs:210-275 | size overflow exactly when the byte count does not fit a word; an empty request is always met; otherwise the tiers in order with the other threads running in between, and out of memory only when the driver, asked at that point, had nothing: the buffer has the length asked for and a live block of its own; undisturbed, or when no lock has to be given up, exactly the steps of the tiers |
| `MemPool.MemPool.PopFrontTier` | crates/ironaccelerator-cuda/src/pool.rs:221-238 | the top block of the thread's own stack, or a miss when that is empty |
| `MemPool.MemPool.PopBackTier` | crates/ironaccelerator-cuda/src/pool.rs:240-251 | the top block of the shared stack, or a miss when that is empty |
| `MemPool.MemPool.DriverTier` | crates/ironaccelerator-cuda/src/pool.rs:253-263 | as many whole elements as the bucket holds, truncated to the request |
| `MemPool.MemPool.AllocBypassing` | crates/ironaccelerator-cuda/src/pool.rs:266-274 | an empty request gets a buffer without a block, one too large its own block |
| `MemPool.MemPool.DropBuf` | crates/ironaccelerator-cuda/src/pool.rs:387-430 | the front stack, the shared stack, the driver, in that order, with the other threads running in between; undisturbed, or when the own stack has room, exactly those steps |
| `MemPool.MemPool.PushFrontTier` | crates/ironaccelerator-cuda/src/pool.rs:401-415 | the block goes on the thread's own stack exactly when that has a free slot |
| `MemPool.MemPool.PushBackTier` | crates/ironaccelerator-cuda/src/pool.rs:417-428 | the block goes on the shared stack exactly when that is below the limit, else to the driver |
| `MemPool.MemPool.TakeOut` | crates/ironaccelerator-cuda/src/pool.rs:360-370 | the buffer leaves the pool with its block |
| `MemPool.MemPool.DropTakenOut` | crates/ironaccelerator-cuda/src/drv.rs:1741-1751 | a buffer that was taken out goes straight to the driver |
| `MemPool.MemPool.DrainFronts` | crates/ironaccelerator-cuda/src/pool.rs:302-319 | every thread's stacks are freed in order and left empty |
| `MemPool.MemPool.DrainBack` | crates/ironaccelerator-cuda/src/pool.rs:320-330 | every shared stack is freed in order and left empty |
| `MemPool.MemPool.Shrink` | crates/ironaccelerator-cuda/src/pool.rs:299-331 | nothing is cached afterwards, what is live is what was taken out, and allocations equal frees plus live blocks |
| `MemPool.MemPool.Destroy` | crates/ironaccelerator-cuda/src/pool.rs:334-340 | live is exactly what was taken out, and the stream is referred to only by buffers that survive the pool |
| `MemPool.MemPool.FrontCache` | crates/ironaccelerator-cuda/src/pool.rs:197-206 | a thread finds the stacks it has; its first use creates empty ones |
| `HandleModel.EntryNeverChanges` | crates/ironaccelerator-cuda/src/cudnn.rs:99-118 | once a key is cached, no interleaving changes its entry or destroys its handle |
| `HandleModel.OneHandlePerKey` | crates/ironaccelerator-cuda/src/cudnn.rs:99-118 | two calls that returned got the same handle if and only if they asked for the same key |
| `HandleModel.RedundantHandlesDropped` | crates/ironaccelerator-cuda/src/cudnn.rs:109-117 | with no call in progress every handle was destroyed as often as created, less one for the cached one |
| `HandleModel.BoundToLastCaller` | crates/ironaccelerator-cuda/src/cudnn.rs:104-118 | a shared handle is set to the stream of the most recent caller that got it |
| `HandleModel.OwnerStep` | crates/ironaccelerator-cuda/src/cusolver.rs:497-515 | every live handle has one owner: one key of the cache or one call |
| `HandleModel.BalanceStep` | crates/ironaccelerator-cuda/src/cusparse.rs:106-124 | every create is matched by a destroy or a live handle, step by step |
| `HandleCache.HandleCache.HandleFor` | crates/ironaccelerator-cuda/src/cudnn.rs:99-118 | with other threads running wherever no lock is held: a cached key gives its handle with no creation; a miss asks the library, and fails to create exactly when the library, in the state it was asked in, does; success returns the cached handle set to its stream; no cached handle is replaced; undisturbed, the created handle is cached and returned and every other entry stays |
| `HandleCache.HandleCache.LookUp` | crates/ironaccelerator-cuda/src/cudnn.rs:102-108 | under the lock a hit binds and returns the cached handle |
| `HandleCache.HandleCache.OrInsert` | crates/ironaccelerator-cuda/src/blas.rs:93-108 | the handle that reached the cache first wins and the other is destroyed |
| `HandleCache.HandleCache.CreateAndInsert` | crates/ironaccelerator-cuda/src/cutensor.rs:82-94 | the library is asked once, and nothing comes of it exactly when it fails; otherwise the caller has the cached handle, its own or the winner's; undisturbed, its own |
| `KernelTheorems.CacheRefinesCompiler` | crates/ironaccelerator-cuda/src/kernel.rs:152-210 | over all runs with crashes and restarts at any point, one writer per file: every returned module was loaded from what the compiler makes of its request, if and only if the hashes decide what is compiled |
| `KernelTheorems.DiskIsWhole` | crates/ironaccelerator-cuda/src/kernel.rs:260-270 | wherever the process died, a file on disk is whole and right |
| `KernelTheorems.KernelsShareImage` | crates/ironaccelerator-cuda/src/kernel.rs:219-223 | two requests that differ only in the function name share one image, in memory and on disk |
| `KernelTheorems.TwoWritersTruncate` | crates/ironaccelerator-cuda/src/kernel.rs:260-270 | a concrete run: two writers of one temporary name and a crash leave a truncated file that a later call loads |
| `KernelTheorems.OneWriterNeeded` | crates/ironaccelerator-cuda/src/kernel.rs:260-270 | with hashes that decide the image the promise holds if and only if each file has one writer at a time |
| `KernelTheorems.OneModulePerKey` | crates/ironaccelerator-cuda/src/kernel.rs:170-210 | within one process all calls for a key return one module, the cached one, whatever the hashes and writers do |
| `KernelModules.RedundantModulesUnloaded` | crates/ironaccelerator-cuda/src/kernel.rs:188-207 | with no call in progress every module the process has loaded is cached under one key or has been unloaded, exactly once |
| `KernelModules.ReturnedStaysLoaded` | crates/ironaccelerator-cuda/src/kernel.rs:198-209 | a module handed to a caller of the running process is never unloaded |
| `KernelModules.AccountStep` | crates/ironaccelerator-cuda/src/kernel.rs:188-207 | every step keeps each loaded module with one owner, a key or a call, or unloaded once |
| `KernelProofs.FilesStep` | crates/ironaccelerator-cuda/src/kernel.rs:260-270 | every step that opens no file under another writer keeps a closed temporary file whole, each file with one writer and final names apart from temporary ones |
| `KernelProofs.SoundStep` | crates/ironaccelerator-cuda/src/kernel.rs:171-208 | every step keeps images in calls, on disk, in memory and in returned modules genuine |
| `KernelCache.KernelCache.GetOrCompile` | crates/ironaccelerator-cuda/src/kernel.rs:152-210 | with any other calls running wherever no lock is held: the module cached for the key; no module is replaced; a cached key costs no disk access and no compile; on a miss the disk is looked at, and a file that is there and readable is used with no compile and no further disk access; each error has its cause; with one writer per file the module comes from the right image; undisturbed, the image is the file's bytes or else the compiler's, which is then stored if the store works |
| `KernelCalls.HowItEnded` | crates/ironaccelerator-cuda/src/kernel.rs:171-210 | of any steps of a call after its miss, whatever other calls did between them: it looked at the disk once, a hit there rules out the compiler, and each error names the step that failed |
| `KernelCalls.OthersKeep` | crates/ironaccelerator-cuda/src/kernel.rs:171-208 | whatever the other calls do, a call in progress finds itself where it was and no cached module is replaced |
| `KernelProofs.NamesStep` | crates/ironaccelerator-cuda/src/kernel.rs:260-270 | no step ever gives one file two names, temporary or final, however many calls write at once |
| `KernelCache.KernelCache.DiskLoad` | crates/ironaccelerator-cuda/src/kernel.rs:255-258 | the file's bytes, or a miss when absent or unreadable |
| `KernelCache.KernelCache.DiskStore` | crates/ironaccelerator-cuda/src/kernel.rs:260-270 | best effort: the call goes on with its image whatever fails; if nothing fails and each file has one writer, or nobody else runs, the image is on disk |
| `KernelCache.KernelCache.Publish` | crates/ironaccelerator-cuda/src/kernel.rs:266-269 | the rename moves the temporary file to the final name if there is one and renaming works, else changes nothing; with one writer per file that is the whole image |
| `KernelCache.KernelCache.OrInsert` | crates/ironaccelerator-cuda/src/kernel.rs:198-207 | the module that reached the cache first wins and the other is unloaded |
| `FftModel.KeyTellsGeometry` | crates/ironaccelerator-cuda/src/fft.rs:196-208 | a key tells rank, extents, type, batch and raw handle |
| `FftProofs.EveryReturnIsRight` | crates/ironaccelerator-cuda/src/fft.rs:241-251 | every call that returned, hit or miss, returned a plan of the geometry asked for bound to the very stream given, however handles were reused |
| `FftProofs.CachedHandleIsOwn` | crates/ironaccelerator-cuda/src/fft.rs:37-41 | a living stream with a cached key's handle is the stream of the cached plan |
| `FftProofs.NoResurrection` | crates/ironaccelerator-cuda/src/fft.rs:37-41 | no step brings a stream without references back to life |
| `FftProofs.HitIsRight` | crates/ironaccelerator-cuda/src/fft.rs:245-247 | the plan a lookup finds has the geometry and the stream asked for |
| `FftProofs.InvStep` | crates/ironaccelerator-cuda/src/fft.rs:237-306 | every step of clients and calls keeps living handles distinct and cached plans right |
| `FftPlanCache.FftPlanCache.GetOrInsert` | crates/ironaccelerator-cuda/src/fft.rs:241-251 | whatever happens in the gap: the right plan, now cached; a hit returns the cached plan, builds nothing and changes nothing; it fails exactly on a miss whose build fails; undisturbed, a miss builds one plan and every other key keeps its plan |
| `FftPlanCache.FftPlanCache.Plan1D` | crates/ironaccelerator-cuda/src/fft.rs:254-269 | a 1D plan of the size and batch asked for on the stream given, with all that is said of a hit and of a miss for that key |
| `FftPlanCache.FftPlanCache.Plan2D` | crates/ironaccelerator-cuda/src/fft.rs:272-287 | a single 2D transform on the stream given, with all that is said of a hit and of a miss for that key |
| `FftPlanCache.FftPlanCache.Plan3D` | crates/ironaccelerator-cuda/src/fft.rs:290-306 | a single 3D transform on the stream given, with all that is said of a hit and of a miss for that key |
| `FftPlanCache.FftPlanCache.ClearPlans` | crates/ironaccelerator-cuda/src/fft.rs:237-239 | nothing is cached; clients keep their plans |
| `Spans.FlushTiles` | crates/ironaccelerator-cuda/src/profile.rs:233-246 | after a flush the resolved spans are laid end to end from 0 |
| `Spans.TilesApart` | crates/ironaccelerator-cuda/src/profile.rs:233-246 | such spans are in buffer order and do not overlap |
| `Spans.TilesEnd` | crates/ironaccelerator-cuda/src/profile.rs:233-246 | and none reaches beyond the total |
| `Spans.TilesCover` | crates/ironaccelerator-cuda/src/profile.rs:233-246 | and every instant below the total is in exactly one of them |
| `Spans.FlushEach` | crates/ironaccelerator-cuda/src/profile.rs:211-247 | a flush changes only GPU spans: names and lengths stay, a resolved one gets the measured length, unresolved ones stay pending |
| `Spans.FlushMoves` | crates/ironaccelerator-cuda/src/profile.rs:233-246 | a placed span moves by exactly the time of the earlier pending spans that resolve |
| `Spans.FlushStays` | crates/ironaccelerator-cuda/src/profile.rs:233-246 | and stays when none of them resolves |
| `Spans.FlushNothingNew` | crates/ironaccelerator-cuda/src/profile.rs:206-247 | a flush that resolves nothing new changes nothing |
| `Spans.FlushTwice` | crates/ironaccelerator-cuda/src/profile.rs:206-247 | flushing twice with the same measurements is flushing once |
| `Profiler.Profiler.FlushGpu` | crates/ironaccelerator-cuda/src/profile.rs:206-247 | the two in-place passes are the flush when on, and nothing when off |
| `Profiler.Profiler.ResolvePending` | crates/ironaccelerator-cuda/src/profile.rs:211-232 | the first pass turns exactly the pending spans with a known time into spans of that length |
| `Profiler.Profiler.Stitch` | crates/ironaccelerator-cuda/src/profile.rs:233-246 | the running cursor lays the spans end to end |
| `Profiler.Profiler.Push` | crates/ironaccelerator-cuda/src/profile.rs:249-257 | buffered up to the capacity, counted as dropped beyond; buffered plus dropped is what was pushed since the last clear |
| `Profiler.Profiler.Clear` | crates/ironaccelerator-cuda/src/profile.rs:145-148 | buffer and dropped counter are reset |
| `Profiler.Profiler.MarkNow` | crates/ironaccelerator-cuda/src/profile.rs:191-200 | a marker is pushed when on, kept or dropped like any event, and nothing happens when off |
| `Profiler.Profiler.EndGpuSpan` | crates/ironaccelerator-cuda/src/profile.rs:416-431 | a pending span is pushed, and nothing when its stop event fails |
| `TraceBody.TraceReadsBack` | crates/ironaccelerator-cuda/src/profile.rs:260-308 | the trace is a document that reads back as exactly the events that are not pending, if and only if the buffer does not end pending after something was written |
| `TraceMeaning.TraceTells` | crates/ironaccelerator-cuda/src/profile.rs:260-308 | what a reader learns, said without the writer: under each key the value that the event has, times rounded down to microseconds, for CPU spans, GPU spans and markers in buffer order |
| `TraceMeaning.ObjectTells` | crates/ironaccelerator-cuda/src/profile.rs:270-300 | the object of one event tells its name, kind, track, thread and times |
| `TraceBody.ObjectAppends` | crates/ironaccelerator-cuda/src/profile.rs:264-303 | what one turn of the loop writes for an event, separator included |
| `TraceBody.PendingAppends` | crates/ironaccelerator-cuda/src/profile.rs:264-305 | a pending event writes at most its separator |
| `TraceText.DocumentReadsBack` | crates/ironaccelerator-cuda/src/profile.rs:260-308 | a document of any objects is read back as those objects |
| `TraceText.TrailingCommaNoDocument` | crates/ironaccelerator-cuda/src/profile.rs:260-308 | a comma after the last object is not a document |
| `TraceWriter.WriteCpu` | crates/ironaccelerator-cuda/src/profile.rs:270-282 | the format string appends one object that, read back, tells the name, the track, the thread and the microseconds of start and duration of the span |
| `TraceWriter.WriteGpu` | crates/ironaccelerator-cuda/src/profile.rs:283-293 | the format string appends one object that, read back, tells the name, the track, and the start and duration of the span |
| `TraceWriter.WriteMark` | crates/ironaccelerator-cuda/src/profile.rs:294-300 | the format string appends one object that, read back, tells the name and the microsecond of the marker |
| `Profiler.Profiler.ChromeTrace` | crates/ironaccelerator-cuda/src/profile.rs:260-308 | a JSON document from which a reader recovers every event that is not pending, in order: name, kind, track, thread, and start and duration in microseconds; no document exactly when the buffer ends pending after something was written |
| `Json.DecodeEncode` | crates/ironaccelerator-cuda/src/profile.rs:446-462 | decoding by section 7 of RFC 8259 gives every input string back |
| `Json.ReadBack` | crates/ironaccelerator-cuda/src/profile.rs:446-462 | inside any larger text the reader stops exactly at the closing quote: no interior quote is unescaped |
| `Json.EncodeIsClean` | crates/ironaccelerator-cuda/src/profile.rs:446-462 | no control character is written raw |
| `Json.JsonStr` | crates/ironaccelerator-cuda/src/profile.rs:446-462 | the loop writes an encoding that decodes to the input |
| `Json.ReadDecimal` | crates/ironaccelerator-cuda/src/profile.rs:277-281 | a number written in decimal is read back, without leading zeros |
| `PinnedProofs.CapIsLeast` | crates/ironaccelerator-cuda/src/pinned.rs:109-116 | the capacity is the least power of two that holds the request and 4 KiB, or wraps to zero when that is 2^64; the bucket is its logarithm, clamped |
| `PinnedProofs.SlabLengths` | crates/ironaccelerator-cuda/src/pinned.rs:45-65 | in every reachable state a slab of bucket i has length 2^(i+12), in the last bucket at least 2^34, or none where the driver grants zero bytes |
| `PinnedProofs.AcquireIsAmple` | crates/ironaccelerator-cuda/src/pinned.rs:45-65 | for every request of a machine word: it gets room for its bytes in every run if and only if it is at most 2^34, or 2^33 where the driver grants zero bytes |
| `PinnedProofs.TooSmall` | crates/ironaccelerator-cuda/src/pinned.rs:45-65 | a concrete run for each kind of driver: a larger request is served by a slab that is too small |
| `PinnedProofs.CountersExact` | crates/ironaccelerator-cuda/src/pinned.rs:51-55 | with no acquisition in progress the counters are the total length and number of pooled and outstanding slabs |
| `PinnedProofs.SizedStep` | crates/ironaccelerator-cuda/src/pinned.rs:45-65 | every step keeps slabs in the bucket of their size |
| `PinnedProofs.ConservedStep` | crates/ironaccelerator-cuda/src/pinned.rs:45-107 | every step keeps the counters, with slabs in flight accounted |
| `PinnedPool.PinnedPool.Acquire` | crates/ironaccelerator-cuda/src/pinned.rs:45-65 | a pooled slab or a new one, with the other threads running in between; room for the request up to the limit; a pooled slab costs no allocation; it fails only when nothing is pooled and the driver refuses |
| `PinnedPool.PinnedPool.TakePooled` | crates/ironaccelerator-cuda/src/pinned.rs:46-47 | the top of the request's bucket, or a miss |
| `PinnedPool.PinnedPool.TakeFresh` | crates/ironaccelerator-cuda/src/pinned.rs:50-56 | a new slab of the capacity, counted in both counters, or an error that counts nothing |
| `PinnedPool.PinnedPool.GiveBack` | crates/ironaccelerator-cuda/src/pinned.rs:101-107 | the slab goes back on top of the bucket it was taken for |

## Left out

- Device loading, FFI tables, backend enumeration and thin vendor wrappers: argument forwarding.
- Stream creation, priorities and the lazy creation of the staging ring: the model's ring exists
  from the start, so `Stream::drop` always synchronises in it; creation failures are not modelled.
- Work that vendor libraries enqueue on the raw stream handle: not visible to the model.
- Two streams writing one buffer: the model has one stream over one address space.
- Slot cursors and microsecond sums are unbounded integers; the source's wrap after 2^64 steps.
- Element types of `DeviceBuf` in the staging pipeline: lengths are in bytes there.
- `copy_to_host` (the asynchronous read) and device-to-device copies: a single driver call each.
- Clients that replace the buffer inside a `PooledBuf` through `DerefMut`: the model's buffers
  keep their block.
- `alloc_zeros` and the pool's own stream order of frees: one memset, and the driver's business.
- Stream.Stream.CopyFromHostStaged: it and the other methods of the class interleave with the GPU
  only; copies that other host threads make meanwhile are interleaved in the step system, whose
  theorems cover them, not in the methods.
- Zero-sized element types: no built-in `Repr` type is one; the model's sizes are positive.
- Two processes sharing the kernel cache's directory at the same moment: one process at a time,
  with any number of restarts.
- The FNV and standard-library hashes, the compiler flags and the include-path search: parameters.
- The device a cached kernel was loaded for: the key has no device field, so nothing is claimed.
- FftProofs.EveryReturnIsRight: key and stream only; a racing insert may replace a cached plan, so
  identity is not claimed.
- The cuFFT handle that a failing `cufftSetStream` leaves behind: plans only are modelled.
- Elapsed time in milliseconds as a float: an arbitrary function from event pairs to whole
  microseconds or a failure.
- `prometheus` and thread-id hashing: formatting only.
- TraceText.DocumentReadsBack: the reader knows the JSON fragment the writer uses (objects of
  strings and unsigned integers, no white space), with strings as in section 7 of RFC 8259.
- Concurrent `push` during `clear`: the two counters are updated one after the other in the
  source; the model's calls are sequential.
- Timing, benchmarks and examples.
