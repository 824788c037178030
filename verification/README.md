# ServerlessLLM: saving, loading and placing models

This project models the parts of ServerlessLLM that decide where the bytes of a model and the
memory for them are, and proves what these parts promise.

* **Cold start.** A model's tensors are written to partition files (`AlignedBuffer`,
  `TensorWriter`, `Checkpoint`), read by several threads into pinned host chunks
  (`ConcurrentVector`, `HostLoader`), cut at chunk boundaries and sent to device queues
  (`Dispatch`, `DispatchTable`, `ConcurrentQueue`), and copied to the offsets that the Python
  planners chose (`Planner`). `LoadMachine` interleaves all of these threads step by step,
  `LoadCompletion` shows that no interleaving gets stuck, and `EndToEnd` joins everything: each
  tensor arrives as saved.
* **Pinned memory.** `HostMemory` is the state machine over which models own which chunks;
  `PinnedPool` and `CheckpointStore` are the classes, with eviction under interference by other
  threads.
* **Placement.** `Placement` is the balanced-placement table, `TiedModules` the merging of tied
  modules around it.
* **Control plane.** `LocalStore` is one node's model store, `Fcfs` the GPU scheduler.

Code that changes state is a class or a method with loops, proved against functions on values;
the theorems are lemmas about these functions. `Bytes` and `Arith` hold the file semantics and
the arithmetic they share, `Collections` what they say about sequences and sets.

## What the proofs assume

* `pread` delivers as many bytes as the file has left, up to the size asked for; `pwrite`, `open`
  and allocation succeed; files do not change while they are read.
* Equal data pointers mean equal storages, and the partition files of a save are fresh.
* The load to the host has started before the dispatcher of a replica runs.
* Steps are atomic as follows: one chunk read, one announcement, one enqueued batch, one copy;
  for pinned memory, one section under the model's mutex; in the control plane, everything
  between two suspension points. The scheduler's locks never wait, because no holder suspends. In
  the model store the loading loop sleeps with the lock held when the queue is empty, so that a
  round can wait for requests between reading the head and evicting; these only append behind the
  head (`LocalStores.HeadStays`), so the round is as good as one after them.

## What turned out different from the documentation or the evident intention

* Partition files are opened without truncation: after saving over a longer file, old bytes stay
  behind the new ones (`AlignedBuffers.AlignedBuffer.Close`).
* A correctly saved checkpoint can fail to load when an inner partition is shorter than a chunk
  (`EndToEnd.SavedButUnreadable`; `EndToEnd.RoomyCheckpointLoads` gives a sufficient condition).
* A failed load that has to wait for a replica can release the memory of a later load of the same
  model (`HostMemory.LateReleaseRun`).
* Clearing the store forgets the models but not their access times: the next eviction meets names
  without a model until these are registered again (`CheckpointStores.CheckpointStore.ClearMem`,
  `HostMemory.StaleUntilRegistered`).
* The planners agree on every device map, but an alias on another device than the first tensor of
  its slot is never copied (`Planner.ServedIffHome`).
* The control plane's "LRU" eviction goes by load time (`LocalStores.LaterUseEvicted`); it is by
  use exactly when the models were last used in load order (`LocalStores.EvictsByUseIff`).
* A load that fails behind its first rank leaves the earlier ranks in memory, and the usage does not
  count them (`LocalStores.LeftoversIff`).
* A model larger than the pool at the head of the store's queue blocks it for good while it
  empties the pool (`LocalStores.StuckForever`); the queue drains exactly when every queued model
  fits (`LocalStores.DrainsIffAllFit`).
* The scheduler serves by position in the models' queues, not by arrival
  (`Fcfs.NotArrivalOrder`); arrival order is respected exactly when the two agree
  (`Fcfs.FirstComeFirstServedIff`).
* The balanced placement is balanced for one and two devices and for no other number
  (`Placement.BalancedIffTwo`), and no placement is an empty map rather than an error.

## Model

| member | source | states |
|---|---|---|
| `EndToEnd.TensorArrives` | sllm_store/csrc/sllm_store/model.cpp:242-584 | Main result. In every run of the load over a saved checkpoint, for every chunk size, thread count, partitioning and interleaving: once the copier of a device has stopped, each tensor whose slot has its home there lies, byte for byte as saved, at its planned offset. Other threads may still be running. |
| `EndToEnd.AllTensorsArrive` | sllm_store/sllm_store/utils.py:90-118 | With tensors that share a slot on one device, this holds for every tensor of the device map. |
| `EndToEnd.ColdStartCompletes` | sllm_store/csrc/sllm_store/model.cpp:129-333 | However far a cold start has got, in any interleaving, it can go on until every tensor of the map has arrived, when inner partitions are at least one chunk long and aliases share a device. |
| `EndToEnd.ColdStartValid` | sllm_store/csrc/sllm_store/model.cpp:515-540 | What saving and planning produce meets everything the loader takes for granted: source ranges inside the model, destinations inside device memory and pairwise disjoint, known handles. |
| `EndToEnd.RoomyCheckpointLoads` | sllm_store/csrc/sllm_store/model.cpp:161-189 | If every storage is at least one chunk below the partition limit, no I/O thread of any run over the saved files fails. |
| `EndToEnd.SavedButUnreadable` | sllm_store/csrc/sllm_store/model.cpp:169-182 | Without that room a correctly saved checkpoint can be unreadable, whatever the partition limit: storages of limit, 8 and limit bytes leave a middle partition of 8 bytes, and one thread with larger chunks that divide the limit cannot read the chunk behind the first partition with two reads. `LoadMachine.HostOutcome` is the exact condition for all checkpoints. |
| `EndToEnd.SourceUnreadable` | sllm_store/csrc/checkpoint/tensor_writer.h:26 | The same for the compiled limit of 10 GiB and chunks of 32 MiB. |
| `AlignedBuffers.AlignedBuffer.constructor` | sllm_store/csrc/checkpoint/aligned_buffer.cpp:26-33 | Nothing is written yet; older content of the file is still there, because it is opened without truncation. |
| `AlignedBuffers.AlignedBuffer.WriteData` | sllm_store/csrc/checkpoint/aligned_buffer.cpp:48-95 | Terminates, consumes all input over any mix of direct and buffered writes, and appends exactly it to the logical stream; file offset stays a multiple of 4096 and the buffer position below its size. |
| `AlignedBuffers.AlignedBuffer.WriteDirect` | sllm_store/csrc/checkpoint/aligned_buffer.cpp:53-77 | The direct path leaves less than one alignment unit unwritten and keeps the stream. |
| `AlignedBuffers.AlignedBuffer.FillBuffer` | sllm_store/csrc/checkpoint/aligned_buffer.cpp:78-92 | The buffered path makes progress and keeps the stream, flushing exactly when full. |
| `AlignedBuffers.AlignedBuffer.Flush` | sllm_store/csrc/checkpoint/aligned_buffer.cpp:83-92 | A flush moves the full buffer to the file without changing the stream. |
| `AlignedBuffers.AlignedBuffer.WritePadding` | sllm_store/csrc/checkpoint/aligned_buffer.cpp:97-113 | Padding below 8 bytes that fits the buffer extends the stream by that many unspecified bytes; otherwise 0 is returned, and the second refusal has already moved the position. |
| `AlignedBuffers.AlignedBuffer.Close` | sllm_store/csrc/checkpoint/aligned_buffer.cpp:35-46 | After the destructor the file is the stream followed by older content beyond it; it is the stream alone if and only if the older file was no longer. |
| `TensorWriters.SourceConfigValid` | sllm_store/csrc/checkpoint/tensor_writer.h:26 | The compiled sizes satisfy the divisibility assumptions: 4096 divides the buffer size and 8 the partition limit. |
| `TensorWriters.SumPaddedAligned` | sllm_store/csrc/checkpoint/tensor_writer.cpp:37-44 | Global offsets and partition sizes are multiples of 8. |
| `TensorWriters.LayoutFlatten` | sllm_store/csrc/checkpoint/tensor_writer.cpp:27-34 | The partitions are a cut of the record sequence: nothing lost, repeated or reordered. |
| `TensorWriters.LayoutGreedy` | sllm_store/csrc/checkpoint/tensor_writer.cpp:27-34 | Every partition has a record, is within the limit unless it is a single record, and was closed only because the next record did not fit. |
| `TensorWriters.LayoutUnique` | sllm_store/csrc/checkpoint/tensor_writer.cpp:27-34 | That rule determines the cut: any other cut obeying it is the one the writer makes. |
| `TensorWriters.LayoutTotal` | sllm_store/csrc/checkpoint/tensor_writer.cpp:43-44 | The partitions together are as long as all padded records. |
| `TensorWriters.ClosedPartitionsLong` | sllm_store/csrc/checkpoint/tensor_writer.cpp:27-34 | When every record leaves room for `chunk` bytes below the limit, every partition but the last is at least `chunk` long. |
| `TensorWriters.AppendStored` | sllm_store/csrc/checkpoint/tensor_writer.cpp:26-49 | Whatever the padding bytes are, appending a record leaves all earlier ones at their global offsets and stores the new one behind them, by the rollover rule. |
| `TensorWriters.OffsetNext` | sllm_store/csrc/checkpoint/tensor_writer.cpp:36-43 | The running offset is the global offset of the next record. |
| `TensorWriters.PaddingFits` | sllm_store/csrc/checkpoint/aligned_buffer.cpp:102-106 | Padding never passes the end of the buffer, so that error branch is unreachable from the writer. |
| `TensorWriters.TensorWriter.WriteRecord` | sllm_store/csrc/checkpoint/tensor_writer.cpp:26-49 | The partitions after the call are those before with one more record and its padding, in the open partition or a new one; the offset returned is the total so far. |
| `TensorWriters.TensorWriter.OpenPartition` | sllm_store/csrc/checkpoint/tensor_writer.cpp:27-34 | Replacing the buffer flushes the old partition completely. |
| `TensorWriters.TensorWriter.AppendPadded` | sllm_store/csrc/checkpoint/tensor_writer.cpp:37-44 | Data and padding to the next multiple of 8 end up at the end of the open partition. |
| `TensorWriters.TensorWriter.Close` | sllm_store/csrc/checkpoint/tensor_writer.cpp:24 | Destroying the writer leaves exactly the partitions in the files. |
| `Checkpoints.SaveTensors` | sllm_store/csrc/checkpoint/checkpoint.cpp:47-82 | The files are what the writer makes of the distinct storages, and the table gives every name the offset of its storage. |
| `Checkpoints.SaveOne` | sllm_store/csrc/checkpoint/checkpoint.cpp:63-73 | A round either shares the offset of a storage already written or appends a new one. |
| `Checkpoints.SavedBytes` | sllm_store/csrc/checkpoint/checkpoint.cpp:63-81 | Every name’s offset is a multiple of 8 and locates exactly its bytes in the concatenated partitions. |
| `Checkpoints.SavedOnce` | sllm_store/csrc/checkpoint/checkpoint.cpp:66-70 | Names with one pointer share one offset; ranges of different storages do not overlap. |
| `Checkpoints.SavedSizes` | sllm_store/csrc/checkpoint/checkpoint.cpp:56-73 | Total file size is the sum of the padded sizes of the distinct storages, cut by the rollover rule. |
| `Checkpoints.SavedPartitionsLong` | sllm_store/csrc/checkpoint/tensor_writer.cpp:27-34 | When every storage leaves a chunk of room, every partition of the save but the last is at least one chunk long. |
| `Checkpoints.StoragesComplete` | sllm_store/csrc/checkpoint/checkpoint.cpp:66-72 | Every name’s pointer is among the storages written. |
| `Checkpoints.StoragesDistinct` | sllm_store/csrc/checkpoint/checkpoint.cpp:66-70 | No pointer is written twice. |
| `ConcurrentVectors.ConcurrentVector.Enqueue` | sllm_store/csrc/sllm_store/concurrent_vector.h:69-82 | A new key appends its item, a known key changes nothing, and with keys below the capacity the write never leaves the array. |
| `ConcurrentVectors.ConcurrentVector.Dequeue` | sllm_store/csrc/sllm_store/concurrent_vector.h:84-89 | Returns the item announced at that position and removes nothing. |
| `ConcurrentVectors.FreeSlot` | sllm_store/csrc/sllm_store/concurrent_vector.h:73-80 | Pigeonhole behind the unchecked slot write: a new key below the capacity always finds a free slot. |
| `ConcurrentQueues.ConcurrentQueue.Enqueue` | sllm_store/csrc/sllm_store/concurrent_queue.h:41-48 | Appends to everything ever enqueued. |
| `ConcurrentQueues.ConcurrentQueue.IsEmpty` | sllm_store/csrc/sllm_store/concurrent_queue.h:61-65 | Empty exactly when everything enqueued has been taken. |
| `ConcurrentQueues.ConcurrentQueue.Dequeue` | sllm_store/csrc/sllm_store/concurrent_queue.h:50-59 | The n-th dequeue returns the n-th item enqueued. |
| `HostLoader.LocateSound` | sllm_store/csrc/sllm_store/model.cpp:131-137 | The skipping loop ends in the partition and offset of the global position, or past the end exactly when the position is. |
| `HostLoader.PartOfUnique` | sllm_store/csrc/sllm_store/model.cpp:131-137 | A byte lies in exactly one partition. |
| `HostLoader.ReadChunkExact` | sllm_store/csrc/sllm_store/model.cpp:161-190 | A chunk read succeeds exactly when its last byte is no further than the next partition; it then delivers the bytes of the concatenation and the position behind them. |
| `HostLoader.ReadAcross` | sllm_store/csrc/sllm_store/model.cpp:169-182 | The same for a read that crosses a partition end, including one that starts exactly at it. |
| `HostLoader.LoadConfig.ThreadOfChunk` | sllm_store/csrc/sllm_store/model.cpp:120-146 | Every chunk is in the range of some thread. |
| `HostLoader.LoadConfig.RangesDisjoint` | sllm_store/csrc/sllm_store/model.cpp:120-146 | No chunk is in the ranges of two threads. |
| `HostLoader.LoadConfig.EarlyExit` | sllm_store/csrc/sllm_store/model.cpp:138-141 | A thread exits early exactly when it has no chunk to read. |
| `HostLoader.LoadConfig.ReadsChunk` | sllm_store/csrc/sllm_store/model.cpp:144-193 | From the right position, reading chunk i succeeds exactly when it is readable, delivers its content and leaves the right position for chunk i + 1. |
| `HostLoader.LoadConfig.LongPartitionsReadable` | sllm_store/csrc/sllm_store/model.cpp:161-189 | With inner partitions at least one chunk long every chunk is readable, wherever its thread began. |
| `HostLoader.LoadConfig.ShareBound` | sllm_store/csrc/sllm_store/model.cpp:120 | Chunks are shared evenly: with one chunk less a thread would have less than the average. |
| `HostLoader.LoadConfig.EqualShares` | sllm_store/csrc/sllm_store/model.cpp:120-146 | In front of a thread that has chunks every thread has the same number, no fewer than it, and they come first: only the last share can be smaller. |
| `HostLoader.LoadThread` | sllm_store/csrc/sllm_store/model.cpp:130-196 | A thread reports success exactly when all its chunks are readable; then each holds its part of the model and was announced once, in order, and no other buffer was touched. It announces at most its even share: one fewer, times the number of threads, is below the number of chunks. |
| `HostLoader.LoadRange` | sllm_store/csrc/sllm_store/model.cpp:144-193 | The same for the loop over the chunk range. |
| `HostLoader.LoadChunk` | sllm_store/csrc/sllm_store/model.cpp:148-192 | The same for one round. |
| `HostLoader.FindStart` | sllm_store/csrc/sllm_store/model.cpp:131-137 | The loop finds the partition and offset where the thread starts. |
| `HostLoader.ReadInto` | sllm_store/csrc/sllm_store/model.cpp:161-190 | The two reads put what they deliver at the front of the buffer and leave its rest. |
| `Dispatch.MapDataToChunks` | sllm_store/csrc/sllm_store/model.cpp:565-584 | Terminates with the cut of the range at chunk boundaries. |
| `Dispatch.CutFitsIff` | sllm_store/csrc/sllm_store/model.cpp:567-572 | No chunk number is truncated to `int` if and only if the range is empty or ends within the first 2^31 chunks. |
| `Dispatch.CutTiles` | sllm_store/csrc/sllm_store/model.cpp:565-584 | The pieces are consecutive and non-empty, each inside one chunk, and together exactly the range. |
| `Dispatch.CutUnique` | sllm_store/csrc/sllm_store/model.cpp:572-581 | The range is cut at chunk boundaries only: there is one piece in each chunk it touches, and no other tiling of the range has that. |
| `Dispatch.TilesSelect` | sllm_store/csrc/sllm_store/model.cpp:572-581 | Read from the chunked bytes, the pieces give exactly bytes [offset, offset + size). |
| `Dispatch.PieceHasRequest` | sllm_store/csrc/sllm_store/model.cpp:527-538 | Every piece moves part of one request to where that request wants it. |
| `Dispatch.PiecesApart` | sllm_store/csrc/sllm_store/model.cpp:527-538 | Disjoint requests have pieces with disjoint destinations. |
| `Dispatch.PiecesCover` | sllm_store/csrc/sllm_store/model.cpp:527-538 | Every requested byte is covered by a piece. |
| `DispatchTables.BuildTable` | sllm_store/csrc/sllm_store/model.cpp:521-540 | Row c of the table holds, in order, exactly the pieces of all copy lists that lie in chunk c; no index leaves the table or the handle list. |
| `DispatchTables.CountDispatched` | sllm_store/csrc/sllm_store/model.cpp:542-555 | Whatever the load order, an item has been sent as often as it occurs once its chunk was announced, and never before. |
| `DispatchTables.DispatchComplete` | sllm_store/csrc/sllm_store/model.cpp:542-555 | When all chunks were announced, in any order, a device has been sent exactly the multiset of pieces of its copy list. |
| `DispatchTables.DispatchSound` | sllm_store/csrc/sllm_store/model.cpp:542-555 | At any point it has been sent no piece more often than its list holds it. |
| `LoadMachine.StepInv` | sllm_store/csrc/sllm_store/model.cpp:129-563 | Every step of an I/O thread, the dispatcher or a copier is safe and keeps the invariant of the whole load. |
| `LoadMachine.RunInv` | sllm_store/csrc/sllm_store/model.cpp:129-563 | The invariant holds in every state of every run. |
| `LoadMachine.RunSafe` | sllm_store/csrc/sllm_store/model.cpp:130-320 | No thread of any run uses an index or range that does not exist: partitions, host buffers, slots of the announcement vector, queues, device memory. |
| `LoadMachine.QueueComplete` | sllm_store/csrc/sllm_store/model.cpp:542-560 | A device queue receives exactly the pieces of its copy list followed by one end marker; no piece has size 0, so none is taken for the marker. |
| `LoadMachine.DeviceComplete` | sllm_store/csrc/sllm_store/model.cpp:299-321 | When its copier has stopped, a device holds every requested range, the same as copying each range directly. |
| `LoadMachine.OnlyRequestedChange` | sllm_store/csrc/sllm_store/model.cpp:314-319 | No other byte of device memory ever changes. |
| `LoadMachine.HostOutcome` | sllm_store/csrc/sllm_store/model.cpp:199-206 | When the I/O threads are through, none has failed if and only if every chunk was readable. |
| `LoadMachine.HostComplete` | sllm_store/csrc/sllm_store/model.cpp:129-197 | If none failed, host chunk i holds exactly bytes [i*chunk, min((i+1)*chunk, size)) of the concatenated files and was announced. |
| `LoadMachine.LongPartitionsNeverFail` | sllm_store/csrc/sllm_store/model.cpp:161-189 | With inner partitions at least one chunk long no thread of any run fails. |
| `LoadCompletion.RunCompletes` | sllm_store/csrc/sllm_store/model.cpp:129-333 | Every run can be continued until all copiers have stopped if every chunk is readable: no interleaving deadlocks the threads. |
| `LoadCompletion.FinishThread` | sllm_store/csrc/sllm_store/model.cpp:130-196 | Any I/O thread can finish on its own, whatever the others have done. |
| `LoadCompletion.AllAnnounced` | sllm_store/csrc/sllm_store/model.cpp:144-196 | When all I/O threads are done, every chunk has been announced, so the dispatcher never waits for one that does not come. |
| `LoadCompletion.DispatchAll` | sllm_store/csrc/sllm_store/model.cpp:542-555 | The dispatcher can then work through all chunks. |
| `LoadCompletion.StopDevice` | sllm_store/csrc/sllm_store/model.cpp:299-326 | Behind an end marker a copier can always stop. |
| `LoadCompletion.FirstRun` | sllm_store/csrc/sllm_store/model.cpp:74-127 | Every valid setup has a run, so the theorems about runs are about something. |
| `Planner.CalculateDeviceMemory` | sllm_store/sllm_store/utils.py:72-87 | Succeeds exactly when every name is in the index, names the first that is not, and gives each device the bytes of the slots whose home it is. |
| `Planner.CalculateTensorDeviceOffsets` | sllm_store/sllm_store/utils.py:90-118 | Succeeds on the same inputs; offsets and copy lists are those of the slots and their homes. Its lists and the other planner’s sizes agree for every device map, also when aliases are on different devices. |
| `Planner.RequestsTile` | sllm_store/sllm_store/utils.py:107-114 | The copy destinations of a device tile [0, device memory) without gap or overlap. |
| `Planner.TilesCover` | sllm_store/sllm_store/utils.py:107-114 | Every byte of it belongs to some request. |
| `Planner.TilesDisjoint` | sllm_store/sllm_store/utils.py:107-114 | No two destinations overlap. |
| `Planner.RequestHasEntry` | sllm_store/sllm_store/utils.py:107-114 | Every request copies the slot of an entry on that device. |
| `Planner.HomeIsEntry` | sllm_store/sllm_store/utils.py:102-105 | The home of a slot is the device of the first entry of the map that names a tensor in it. |
| `Planner.InMapOrder` | sllm_store/sllm_store/utils.py:107-114 | On a device slots lie in the order in which the map first names them; with the tiling this fixes every destination. |
| `Planner.HomeHasRequest` | sllm_store/sllm_store/utils.py:107-114 | The home of a slot has the request that copies it. |
| `Planner.ServedIffHome` | sllm_store/sllm_store/utils.py:102-105 | A tensor is brought to its own device exactly when that device is the home of its slot; an alias elsewhere gets an offset but no copy. |
| `Planner.AllServedIffAliasesTogether` | sllm_store/sllm_store/utils.py:102-105 | All tensors are served if and only if tensors sharing a slot share a device. |
| `HostMemory.StepInv` | sllm_store/csrc/sllm_store/model.cpp:445-513 | A step keeps the pool invariant (free list and held chunks pairwise disjoint, together the pool; allocated states hold exactly ceil(size/chunk) chunks, others none) if and only if it is not a late release. |
| `HostMemory.RunInv` | sllm_store/csrc/sllm_store/model.cpp:213-234 | In every run of register, allocate, load, fail, evict and free the invariant holds up to the first late release and fails right after it. |
| `HostMemory.LateReleaseRun` | sllm_store/csrc/sllm_store/model.cpp:214-231 | A late release does happen: while a failed load waits for a replica, the model is unloaded and loaded again, and then loses the new memory; the run ends LOADED with a null memory pointer. |
| `HostMemory.EnvironmentRely` | sllm_store/csrc/sllm_store/model.cpp:242-268 | What other threads can do while the store mutex is held: chunks only come back, and a model without memory gets none. |
| `HostMemory.RelyTransitive` | sllm_store/csrc/sllm_store/checkpoint_store.cpp:134-147 | The same for any number of their steps. |
| `HostMemory.EvictGains` | sllm_store/csrc/sllm_store/model.cpp:507-512 | An eviction returns to the free list exactly as many chunks as it reports. |
| `HostMemory.FreeGains` | sllm_store/csrc/sllm_store/model.cpp:445-482 | Unloading a model with nothing loading succeeds if and only if it has memory; then it is UNALLOCATED, holds nothing, and exactly its ceil(size/chunk) chunks are free in addition. Otherwise the result is 1 and nothing changes. |
| `HostMemory.LoadLife` | sllm_store/csrc/sllm_store/model.cpp:126-234 | A load goes from ALLOCATED through LOADING to LOADED on the same chunks; a failed one gives all of them back, at once or after waiting as INTERRUPTED. |
| `HostMemory.StaleUntilRegistered` | sllm_store/csrc/sllm_store/checkpoint_store.cpp:134-137 | In every run after clearing the store, a model that had an access time is still in the order of eviction, and there is a model behind its name if and only if it has been registered again. |
| `HostMemory.ReplicaLife` | sllm_store/csrc/sllm_store/model.cpp:252-268 | A replica starts LOADING, ends LOADED exactly when its copies succeed and INTERRUPTED otherwise, and goes only when it is not loading; host memory and other replicas are not touched. |
| `HostMemory.EvictRely` | sllm_store/csrc/sllm_store/model.cpp:484-513 | An eviction too only brings chunks back. |
| `HostMemory.BusyKeepsIff` | sllm_store/csrc/sllm_store/model.cpp:457-513 | A step leaves a model that is loading, or has a loading replica, its chunks if and only if it is not the end of a failed load of that model. |
| `HostMemory.BusyKeepsChunks` | sllm_store/csrc/sllm_store/model.cpp:129-340 | In every run without failed loads such a model keeps the very same chunks throughout: what the threads of a load read and write stays theirs. |
| `PinnedPool.PinnedMemoryPool.constructor` | sllm_store/csrc/sllm_store/pinned_memory_pool.cpp:23-46 | ceil(total/chunk) distinct buffers, all free. |
| `PinnedPool.PinnedMemoryPool.Allocate` | sllm_store/csrc/sllm_store/pinned_memory_pool.cpp:55-83 | Takes ceil(size/chunk) distinct free buffers, or returns the number missing and takes none; size 0 is an error. |
| `PinnedPool.PinnedMemoryPool.Deallocate` | sllm_store/csrc/sllm_store/pinned_memory_pool.cpp:85-100 | Succeeds exactly when every buffer is of the pool, not free and not repeated; otherwise stops at the first offender, with those before it returned. |
| `PinnedPool.OwnedReturnable` | sllm_store/csrc/sllm_store/pinned_memory.cpp:22-28 | Buffers a model owns can always be returned, so the destructor’s error branch is unreachable under the invariant. |
| `CheckpointStores.Model.Initialize` | sllm_store/csrc/sllm_store/model.cpp:40-72 | Size is the sum of the partition files; no bytes is an error. |
| `CheckpointStores.Model.AllocatePinnedMemory` | sllm_store/csrc/sllm_store/model.cpp:586-610 | Ends ALLOCATED with exactly the chunks needed, or reports the number missing and leaves the pool alone. |
| `CheckpointStores.Model.TryFreeHost` | sllm_store/csrc/sllm_store/model.cpp:484-513 | Agrees with the step function in state, free list and result. |
| `CheckpointStores.Model.FreeHostMemory` | sllm_store/csrc/sllm_store/model.cpp:445-482 | Fails exactly when the model has no memory; otherwise it is UNALLOCATED, holds nothing, and all it held is in the free list. |
| `CheckpointStores.Model.BeginToHost` | sllm_store/csrc/sllm_store/model.cpp:74-127 | Only an ALLOCATED model with memory, whose files can be opened, starts to load; each other case returns its code and changes nothing. |
| `CheckpointStores.Model.EndInterrupt` | sllm_store/csrc/sllm_store/model.cpp:229-233 | A failed load returns what the model holds by then. |
| `CheckpointStores.SortByTime` | sllm_store/csrc/sllm_store/checkpoint_store.cpp:128-133 | The access list is each registered access once, oldest first. |
| `CheckpointStores.CheckpointStore.RegisterModelInfo` | sllm_store/csrc/sllm_store/checkpoint_store.cpp:88-109 | A known path returns its size; a new one is added with the sum of its files, or refused when empty. |
| `CheckpointStores.CheckpointStore.AllocateModel` | sllm_store/csrc/sllm_store/checkpoint_store.cpp:122-126 | The model has memory, or the exact shortage is returned and nothing visible changed. |
| `CheckpointStores.CheckpointStore.UnloadModelFromHost` | sllm_store/csrc/sllm_store/checkpoint_store.cpp:290-300 | Returns 0 exactly for a known model with memory, and then exactly its ceil(size/chunk) chunks come back and it has none; otherwise 1 and nothing changes. |
| `CheckpointStores.CheckpointStore.ClearMem` | sllm_store/csrc/sllm_store/checkpoint_store.cpp:276-288 | All chunks are free, no model is left and the result is 0; the access times stay, so that the store’s invariant holds afterwards if and only if there are none. |
| `CheckpointStores.CheckpointStore.EnvironmentStep` | sllm_store/csrc/sllm_store/model.cpp:445-482 | A section of another thread keeps the store valid and stays within the rely condition. |
| `CheckpointStores.CheckpointStore.EvictNext` | sllm_store/csrc/sllm_store/checkpoint_store.cpp:134-147 | One round, with any interference: a model is passed over only when it holds no chunks or is loading, and what it frees is free afterwards. |
| `CheckpointStores.CheckpointStore.EvictFor` | sllm_store/csrc/sllm_store/checkpoint_store.cpp:128-151 | Victims are tried in non-decreasing access time; no loading model is evicted; without the last victim the shortage would not be covered. |
| `CheckpointStores.CheckpointStore.EvictAndAllocate` | sllm_store/csrc/sllm_store/checkpoint_store.cpp:126-157 | When the loop covers the shortage the second allocation succeeds, although other threads run before every attempt and between the last one and the allocation. |
| `CheckpointStores.CheckpointStore.AllocateAgain` | sllm_store/csrc/sllm_store/checkpoint_store.cpp:152-156 | The second allocation returns 0 whatever other threads do before it: its unchecked positive return is unreachable. |
| `CheckpointStores.CheckpointStore.AllocateForLoad` | sllm_store/csrc/sllm_store/checkpoint_store.cpp:111-159 | Success means the model has its memory and its access time is recorded; failure means it is unregistered or all models were tried in order and freed too little. |
| `LocalStores.RunOk` | sllm/store_manager.py:106-214 | In every reachable state the usage is the sum of ceil(size/chunk) over pinned models and within the pool; queued names are exactly those in the I/O queue, none twice, none pinned; estimated times never decrease along the queue. |
| `LocalStores.EvictedMeans` | sllm/store_manager.py:178-214 | Eviction makes room if and only if the model fits the whole pool; victims were loaded no later than any survivor, and without the last one there would be no room. If it never fits, everything is evicted. |
| `LocalStores.HeadLeaves` | sllm/store_manager.py:140-176 | A round of the loading loop takes the head off the queue unless it is larger than the pool; then it empties the pool. |
| `LocalStores.StuckForever` | sllm/store_manager.py:152-159 | Behind a head larger than the pool no request is ever served, in any run; nothing is loaded and after one round nothing is pinned. |
| `LocalStores.Drain` | sllm/store_manager.py:140-176 | When all queued models fit the pool, as many rounds as requests empty the queue in order, and the last model is pinned if loads succeed. |
| `LocalStores.DrainsIffAllFit` | sllm/store_manager.py:140-176 | As many rounds as requests leave the queue empty if and only if every queued model fits the pool by itself. |
| `LocalStores.EvictsByUseIff` | sllm/store_manager.py:178-203 | Whatever is loaded next, no model is evicted that was used later than one that stays, if and only if the pinned models were last used in the order in which they were loaded (pairs with no chunks from the first up to the second aside). |
| `LocalStores.NoReuseByUse` | sllm/store_manager.py:112-116 | As long as no pinned model is requested again, that is the case. |
| `LocalStores.LaterUseEvicted` | sllm/store_manager.py:112-116 | A run from the empty store in which the next load evicts the model that was used last, because a request for a pinned model leaves its time alone. |
| `LocalStores.RunResident` | sllm/store_manager.py:160-172 | In every reachable state all paths of a pinned model are loaded and not unloaded, if no two models share a path. |
| `LocalStores.RanksTakeMore` | sllm/store_manager.py:80-91 | The usage counts a model by total size, which is at most, and can be less than, what its ranks take separately. |
| `LocalStores.HeadStays` | sllm/store_manager.py:144-158 | Requests and registrations that come between reading the head and evicting only append behind it: the round goes on as if it had read the head after them. |
| `LocalStores.EvictedPaths` | sllm/store_manager.py:196-206 | Eviction unloads exactly the paths of the models it drops, all ranks of each. |
| `LocalStores.LeftoversIff` | sllm/store_manager.py:160-172 | A step that starts with nothing loaded but pinned models ends so if and only if it is not a load that fails behind its first rank: the ranks loaded before the failure stay in memory and no usage counts them. |
| `LocalStores.RequestEstimate` | sllm/store_manager.py:119-131 | A new request goes behind all others, and its estimate leaves time for exactly its own bytes from when the disk is free: the later of now and the estimate in front of it. |
| `LocalStores.RequestsEstimate` | sllm/store_manager.py:119-131 | Over any sequence of new requests, at any times and behind any queue, they wait in order, and the last estimate is exactly when the disk can be done: from every request on there is time for it and those behind it, and from one of them on no more than that. |
| `LocalStores.BurstEstimate` | sllm/store_manager.py:119-131 | Requests at one time on an empty queue are estimated to be done after the time for the sum of their sizes. |
| `LocalStores.SllmLocalStore.RegisterModel` | sllm/store_manager.py:71-95 | Adds the name with its paths and the total of its ranks, once. |
| `LocalStores.SllmLocalStore.GetStoreInfo` | sllm/store_manager.py:97-104 | Reports the models, the pinned pool and how long a request made now would wait for the disk. |
| `LocalStores.SllmLocalStore.LoadToHost` | sllm/store_manager.py:106-138 | Agrees with the request step; accepted names are pinned or queued afterwards, and a pinned or queued one changes nothing. A new one is appended with the time from which the disk is free plus its own load time. |
| `LocalStores.SllmLocalStore.UnloadFor` | sllm/store_manager.py:192-209 | The eviction loop ends in the state the specification gives. |
| `LocalStores.SllmLocalStore.LruEviction` | sllm/store_manager.py:178-214 | Terminates; returns false exactly when the model alone is larger than the pool. |
| `LocalStores.SllmLocalStore.LoadPaths` | sllm/store_manager.py:161-163 | Paths are loaded up to the first failure only. |
| `LocalStores.SllmLocalStore.LoadNext` | sllm/store_manager.py:140-176 | Agrees with the loading step, with the exact condition for each outcome. A model that was loaded is pinned with the time and all its paths; one that failed has left the queue and is not pinned. |
| `Fcfs.RunConservesJoined` | sllm/schedulers/fcfs_scheduler.py:68-203 | From an empty scheduler, over any careful run, the free, granted and recorded GPUs of a node add up to what was free on it when it joined. |
| `Fcfs.RunConserves` | sllm/schedulers/fcfs_scheduler.py:68-203 | From any state they add up to the same total as there. |
| `Fcfs.ConservesIffCareful` | sllm/schedulers/fcfs_scheduler.py:83-107 | A step conserves GPUs if and only if recording does not overwrite an instance that has GPUs and deallocation gives back the granted count. |
| `Fcfs.PassTotal` | sllm/schedulers/fcfs_scheduler.py:135-176 | A pass only moves GPUs from free to granted; a joining node adds its own. |
| `Fcfs.RecordTotal` | sllm/schedulers/fcfs_scheduler.py:83-86 | Recording loses exactly the GPUs of an instance it overwrites. |
| `Fcfs.DeallocateTotal` | sllm/schedulers/fcfs_scheduler.py:95-107 | Deallocation is off by exactly the difference between the count given and the count granted. |
| `Fcfs.PassServes` | sllm/schedulers/fcfs_scheduler.py:139-175 | After a pass no waiting request fits any node, unless its caller gave up; one that no longer waits has been granted. |
| `Fcfs.GrantsFormPrefix` | sllm/schedulers/fcfs_scheduler.py:138-175 | In one queue a later request of at least the same size is not granted while an earlier one keeps waiting: equal-size grants form a prefix. |
| `Fcfs.NeverOvertakenIffBefore` | sllm/schedulers/fcfs_scheduler.py:138-175 | Of two waiting requests in any queues, the one for no more GPUs is never overtaken, whatever the nodes, if and only if a pass tries it first: by position in its queue, then by the order of the queues. |
| `Fcfs.FirstComeFirstServedIff` | sllm/schedulers/fcfs_scheduler.py:113-175 | First come, first served holds of the waiting requests if and only if each earlier, no larger one stands further to the front. |
| `Fcfs.NotArrivalOrder` | sllm/schedulers/fcfs_scheduler.py:138 | A run from the empty scheduler in which it does not: a later request of another model is granted first. |
| `Fcfs.RecordLookup` | sllm/schedulers/fcfs_scheduler.py:83-86 | After recording, the granted request is found under its own model and instance name, with its node and GPUs; all other names find what they found before. |
| `Fcfs.DeallocateLookup` | sllm/schedulers/fcfs_scheduler.py:95-107 | After deallocating, the name finds nothing, other names what they found before, and the GPUs given are free on the node of the instance and nowhere else; an unknown name changes nothing. |
| `Fcfs.RecordThenDeallocate` | sllm/schedulers/fcfs_scheduler.py:83-107 | Recording a granted request and deallocating it with its own count leaves no entry and frees exactly its GPUs on the node it was granted. |
| `Fcfs.GrantTakesFirst` | sllm/schedulers/fcfs_scheduler.py:147-173 | A grant is on the first node with enough GPUs, and only that node loses them. |
| `Fcfs.RunTidy` | sllm/schedulers/fcfs_scheduler.py:68-203 | In every reachable state each queue is in order of arrival, every future belongs to one request and is set at most once, and no name has two instances. |
| `Fcfs.OneModelFirstCome` | sllm/schedulers/fcfs_scheduler.py:113-175 | As long as there are requests of one model only, first come, first served holds in every reachable state. |
| `Fcfs.ApplyOk` | sllm/schedulers/fcfs_scheduler.py:68-203 | No request waits twice or waits after being granted, and grants and instances are on known nodes. |
| `Fcfs.FcfsScheduler.AllocateResource` | sllm/schedulers/fcfs_scheduler.py:68-81 | The request waits under a new future. |
| `Fcfs.FcfsScheduler.RecordInstance` | sllm/schedulers/fcfs_scheduler.py:82-87 | Agrees with the record step: the instance is found under its name afterwards, with the node that is returned, a known one. |
| `Fcfs.FcfsScheduler.DeallocateResource` | sllm/schedulers/fcfs_scheduler.py:89-108 | Agrees with the step; the unknown-node branch is unreachable. |
| `Fcfs.FcfsScheduler.ControlPass` | sllm/schedulers/fcfs_scheduler.py:113-176 | The collecting, sorting and granting loops agree with the pass function. |
| `Fcfs.FcfsScheduler.GiveUp` | sllm/schedulers/fcfs_scheduler.py:151-154 | A caller that gives up is passed over by later passes. |
| `Fcfs.FcfsScheduler.DropQueues` | sllm/schedulers/fcfs_scheduler.py:57-66 | Shutdown drops the waiting requests and nothing else. |
| `Fcfs.FcfsScheduler.TryGrant` | sllm/schedulers/fcfs_scheduler.py:146-173 | The first node with enough GPUs is taken. |
| `Fcfs.FcfsScheduler.GetWorkerNodes` | sllm/schedulers/fcfs_scheduler.py:180-190 | Unknown cluster nodes join, known ones keep their counts. |
| `Placement.BestSound` | sllm_store/sllm_store/device_map_utils.py:243-270 | A cell is reached if and only if the modules can be cut into contiguous non-empty parts that fit their devices; it then records such a cut with its true smallest and largest part. |
| `Placement.CutMeans` | sllm_store/sllm_store/device_map_utils.py:247-254 | A cut is the same as a sequence of adjoining non-empty parts from first to last module, part k within device k. |
| `Placement.TwoDevicesBalanced` | sllm_store/sllm_store/device_map_utils.py:259-270 | For two devices the parts chosen are at most as far apart as in any cut that fits. |
| `Placement.BestChosen` | sllm_store/sllm_store/device_map_utils.py:259-270 | A reached cell records a chosen cut: every part, behind the parts in front of it, begins where its gap to them is smallest, and at the foremost such place. |
| `Placement.ChosenUnique` | sllm_store/sllm_store/device_map_utils.py:259-270 | No other cut is chosen, for any number of devices: this determines the table. |
| `Placement.BalancedIffTwo` | sllm_store/sllm_store/device_map_utils.py:259-270 | The balanced placement is always balanced, its largest and smallest part no further apart than in any cut that fits, for one and two devices and for no other number. |
| `Placement.MoreDevicesNotBalanced` | sllm_store/sllm_store/device_map_utils.py:259-263 | For every number of devices from three on, a case where the table ends on parts 4 apart with a recorded gap of 2 although a cut with parts 3 apart fits. |
| `Placement.FillTable` | sllm_store/sllm_store/device_map_utils.py:232-270 | The nested loops fill the table with the specified cells. |
| `Placement.FillCell` | sllm_store/sllm_store/device_map_utils.py:246-270 | The innermost loop computes one cell and changes no other. |
| `Placement.BalancedPlacement` | sllm_store/sllm_store/device_map_utils.py:213-278 | Names the exact inputs of the assertion and of the None result; otherwise every module is on the device of its part of the chosen cut when a cut exists, and the map is empty when none does. |
| `TiedModules.MergeGroup` | sllm_store/sllm_store/device_map_utils.py:155-165 | The in-place merging of one group agrees with the merge function. |
| `TiedModules.MergeModules` | sllm_store/sllm_store/device_map_utils.py:155-165 | The same for all groups; names stay unique. |
| `TiedModules.MergeAllNames` | sllm_store/sllm_store/device_map_utils.py:155-165 | Of disjoint groups exactly the first members remain, and all modules outside them. |
| `TiedModules.MergeAllAhead` | sllm_store/sllm_store/device_map_utils.py:155-165 | Merging keeps the order of the modules that remain. |
| `TiedModules.MergeAllLoad` | sllm_store/sllm_store/device_map_utils.py:159-164 | On any device that groups are not split over, merging takes off exactly what the groups save there by holding their shared part once. |
| `TiedModules.ReassignMeans` | sllm_store/sllm_store/device_map_utils.py:200-206 | Reassignment moves no placed module and puts all members of a group where its placed member is. |
| `TiedModules.ReassignTied` | sllm_store/sllm_store/device_map_utils.py:200-206 | The loops agree with the reassignment function. |
| `TiedModules.TiedFits` | sllm_store/sllm_store/device_map_utils.py:155-206 | A cut of the merged modules becomes a placement of all modules: tied ones together, and no device above its memory with shared parts counted once. |
| `TiedModules.TiedBalanced` | sllm_store/sllm_store/device_map_utils.py:185-206 | What is placed is the balanced placement of the merged modules: the chosen cut; along their order devices go up from the first to the last without a gap; on two devices the loads are no further apart than the parts of any cut that fits. |
| `TiedModules.ComputePlacement` | sllm_store/sllm_store/device_map_utils.py:129-208 | The exact condition of each outcome. With disjoint groups and a feasible cut the result is such a placement of all modules, and the balanced one of the merged modules. The loop that drops devices either does nothing or drops all of them and raises StopIteration; an infeasible placement is an empty map, not the error for a missing one. |

## Left out

- AlignedBuffers.AlignedBuffer.WriteData: write errors and allocation failure (early return, exit) are not modelled.
- HostLoader.LoadThread: read errors other than short reads are not modelled, nor is the check for cancellation, which nothing in the source triggers: no code sets a model's own state to CANCELLED. The buffer is a value that is replaced, not memory written in place.
- HostLoader.LoadRange: as for `HostLoader.LoadThread`.
- Dispatch.MapDataToChunks: chunk numbers are unbounded; `Dispatch.CutFitsIff` says exactly when none is truncated, and what happens otherwise is not modelled.
- LoadMachine.DeviceComplete: is about successful, uncancelled copies; CUDA errors, IPC handles and the closing of handles are not modelled, and a device is a byte sequence per handle.
- LoadMachine.QueueComplete: queues are values (everything sent, and how much was taken), which is how `ConcurrentQueues.ConcurrentQueue` describes them.
- LoadMachine.HostOutcome: the machine announces into a plain list; that the announcement vector never drops or overruns is proved for `ConcurrentVectors.ConcurrentVector` and `HostLoader.LoadThread`, one thread at a time.
- CheckpointStores.Model.FreeHostMemory: entered when the waits for a loading host or replica are over.
- CheckpointStores.CheckpointStore.UnloadModelFromHost: as for `CheckpointStores.Model.FreeHostMemory`; that nothing is loading stays true until the model is locked.
- CheckpointStores.CheckpointStore.ClearMem: as for `CheckpointStores.Model.FreeHostMemory`, with all waits taken to be over at the start; a missing model in a later eviction is not modelled further, `EvictFor` requires that there is none.
- HostMemory.RunInv: `FreeHost` and the release after a failed load are single guarded steps, enabled when the waiting would be over.
- CheckpointStores.CheckpointStore.EnvironmentStep: interference is by every section except a late release, the one step after which `HostMemory.StepInv` shows the invariant gone.
- CheckpointStores.Model.AllocatePinnedMemory: the `PinnedMemory` object is a value owned by the model; sharing of it by a copier that outlives the model is not modelled.
- Fcfs.RunConserves: a caller cancelled between grant and record is not modelled; its GPUs would stay granted.
- TiedModules.ComputePlacement: only the `auto` and `balanced` maps (a map that is not a string is returned as it is); a shared part is taken to be no larger than each module that shares it, as the code that measures it guarantees.
- Liveness: `LoadCompletion` shows that a load can always go on, not that a waiting thread is woken or scheduled; `ToHost` never notifies its condition variable, and the dispatcher waits forever when a thread fails.
- `_get_sequential_placement`, name expansion, device-memory discovery and `balanced_low_0` (not implemented by the source).
- The storage-aware scheduler, routers, controller, RPC server and client, downloads, benchmarks, inference backends, quantization and adapters.

