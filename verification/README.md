# Shared-memory transport, modelled and proved in Dafny

The three layers of `src/svm` that share one memory segment: the chunked byte fifo, the segment allocator and the
message queue.

**Fifo.** `ByteQueue` says what a fifo is for: a byte stream with absolute positions, a head, a tail that is the first
position never written, and possibly bytes already known past it. `Fifo` is the code as a class over the segment's
memory: wrapped 32-bit positions, chunks linked by offsets, growth while enqueuing, unlinking while dequeuing, the
out-of-order segment list (`OutOfOrder`), cached chunks and the two lookup trees (`ChunkTree`, `FifoLookup`).
Unbounded ghost positions run beside the stored ones. Every operation is proved to be a step of the byte stream, to
keep all invariants, and to leave the chunks of every other fifo alone. `FifoLayout` and `FifoState` hold the value-
level facts the methods rest on. `FifoMachine` splits the producer's and the consumer's work into single loads,
lookups, byte copies, link writes and publishing stores; `FifoProducer` and `FifoConsumer` prove that each step keeps
the invariant, and `FifoConcurrent` that every interleaving refines the byte stream and delivers the bytes the
producer was asked to write. `FifoProgress` adds what becomes of each request: when it starts, that it is written or
delivered and how much of it, and that it ends.

**Segment.** `SizeClasses`, `FreeLists` and `Segment` model size classes, free lists, batch carving, multi-chunk
assembly and collection with exact accounting. `Allocation` computes what an allocation hands out and leaves from the
numbers of free chunks and the byte index; every operation that may run out of memory is proved to do so exactly when
that computation says so, and `AllocationLaws` says in bytes and room when that is. `SegmentFifos` adds fifo headers,
allocation and release and the accounting over any number of fifos; `SegmentRuns` drives any sequence of commands over
them and pins down each answer. `FreeListStack` is the lock-free stack with its 16-bit tag, for any number of threads;
`BumpAllocator` is the racing byte index. `Arithmetic` holds the facts about products and rounding they share.

**Message queue.** `MsgQueueWakeup` is blocking with mutex and condition variable, `MsgQueueOrder` the rings and
descriptors with index and size updates as separate steps, `MsgQueueProgress` when each of these steps is possible,
`MsgQueueBatch` the batch take, `MsgQueueLayout` the shared-memory layout.

Atomics are sequentially consistent steps. The working domain is the one the source's assertions and size classes
imply: lengths above 0, out-of-order offsets above 0, fifo sizes up to 2^30, one growth request at most 2^22 bytes.
Segments go up to 2^44 bytes: up to there the code's 32-bit count of smallest chunks does not overflow.

Where code and documentation differ the model follows the code: chunk allocation is documented to cover the request,
but a request above 2^22 bytes can be given a single chunk of 2^22; `AllocChunk` states exactly when it is covered and
`OversizeShort` makes the smallest such request. The first allocation of a fifo is a percentage whose product is taken
in 32 bits; `FirstAllocIff` states when it is the percentage. A request refused because its bytes cannot be assembled
may succeed when made again, because the refusal carved chunks; `SecondTry` states when. Bytes handed out or collected
are summed in 32 bits, so lists of 2^32 bytes and more, possible in segments above 4 GB only, leave the byte counters
wrong; `AllocChunk` and `Collect` state exactly when, and `Miscounted` is such a request to the allocator. The message
test computes distances in 32 bits and misjudges rings of more than 2^31 slots; `ExactIffNarrow` and `AddedValid`
state when. A queue whose rings are configured with external data is laid out larger than the size computed for it;
`WithinAllocation` states by how much.

Verify the whole project with `dafny verify dfyconfig.toml`.

## Model

| member | source | states |
|---|---|---|
| `Positions.Order` | vpp-src/vpp/src/svm/svm_fifo.h:143-165 | the four signed-difference comparisons of wrapped 32-bit positions agree with integer order whenever the unwrapped positions are less than 2^31 apart |
| `Positions.OrderExactly` | vpp-src/vpp/src/svm/svm_fifo.h:143-165 | within one lap the agreement holds if and only if the positions are less than 2^31 apart |
| `Positions.Distance` | vpp-src/vpp/src/svm/svm_fifo.h:120-135 | the wrapped difference of two positions is their exact distance: current size and free count are exact across wraps |
| `OutOfOrder.Canonical` | vpp-src/vpp/src/svm/svm_fifo.c:179-303 | a list of separated segments is determined by the positions it covers, so the contract of Add fixes the resulting list |
| `OutOfOrder.MergedSeparated` | vpp-src/vpp/src/svm/svm_fifo.c:267-303 | replacing the touched segments by their hull keeps the list sorted, disjoint and with real gaps |
| `OutOfOrder.MergedCovers` | vpp-src/vpp/src/svm/svm_fifo.c:267-303 | the merged list covers exactly the old positions and the new interval |
| `OutOfOrder.Unlink` | vpp-src/vpp/src/svm/svm_fifo.c:150-173 | bypassing a node in both directions and dropping its pool element leaves a doubly linked list of the other nodes, with no other element in the pool |
| `OutOfOrder.OooList.Free` | vpp-src/vpp/src/svm/svm_fifo.c:150-173 | exactly node k is unlinked and its pool element returned; list head updated |
| `OutOfOrder.OooList.Search` | vpp-src/vpp/src/svm/svm_fifo.c:201-205 | finds the first node at or after the position, or the last node |
| `OutOfOrder.OooList.DropCovered` | vpp-src/vpp/src/svm/svm_fifo.c:286-293 | frees exactly the following segments that end by the new end, each once |
| `OutOfOrder.OooList.Absorb` | vpp-src/vpp/src/svm/svm_fifo.c:286-300 | frees the covered followers and merges a partially overlapped one |
| `OutOfOrder.OooList.Merge` | vpp-src/vpp/src/svm/svm_fifo.c:267-303 | merging at head and tail leaves a separated list that covers old set union new interval, and marks the newest segment exactly when something changed |
| `OutOfOrder.OooList.Add` | vpp-src/vpp/src/svm/svm_fifo.c:179-303 | for every list and interval: sorted, disjoint, gapped doubly linked list afterwards, covering exactly old union new; newest is set if and only if the interval was not already inside one segment |
| `OutOfOrder.CollectedAt` | vpp-src/vpp/src/svm/svm_fifo.c:309-355 | dropping the passed segments moves the tail to the first unrecorded position and leaves only segments strictly past it |
| `OutOfOrder.OooList.TryCollect` | vpp-src/vpp/src/svm/svm_fifo.c:309-355 | with the mixed signed and unsigned comparisons of the code: the tail moves to the first position never written, the returned count is the whole advance, surviving segments start strictly past the tail |
| `SizeClasses.MaxLog2Least` | vpp-src/vpp/src/svm/fifo_segment.c:466-473 | the class exponent is the least power of two that covers the size |
| `SizeClasses.FreelistCovers` | vpp-src/vpp/src/svm/fifo_segment.c:466-479 | a size class covers the request if and only if the request is at most 2^22, and the class below never does |
| `SizeClasses.FreelistOfClass` | vpp-src/vpp/src/svm/fifo_segment.c:466-479 | class index and class size are inverse to each other |
| `SizeClasses.OversizeClass` | vpp-src/vpp/src/svm/fifo_segment.c:466-479 | the class for a request of 2^22 + 1 bytes holds 2^22 bytes |
| `Segments.Segment.constructor` | vpp-src/vpp/src/svm/fifo_segment.c:295-341 | an empty segment of up to 2^44 bytes satisfies the allocator invariant |
| `Segments.Segment.Pop` | vpp-src/vpp/src/svm/fifo_segment.c:191-221 | takes the chunk at the top of a free list and accounts for it; null exactly on an empty list |
| `Segments.Segment.Push` | vpp-src/vpp/src/svm/fifo_segment.c:149-168 | puts a handed-out chunk on top of its class's list; the invariant is kept |
| `Segments.Segment.AllocAligned` | vpp-src/vpp/src/svm/fifo_segment.c:19-41 | moves the byte index over a region of the given alignment below the limit, or fails and leaves it; fails if and only if the rounded region would reach the limit |
| `Segments.Segment.CarveBatch` | vpp-src/vpp/src/svm/fifo_segment.c:589-628 | carves pairwise disjoint chunks out of fresh memory onto one list and updates every counter by exactly what was carved; fails without effect |
| `Segments.Segment.Gather` | vpp-src/vpp/src/svm/fifo_segment.c:493-513 | terminates by remaining bytes, then class index; takes exactly the chunks the greedy descent over the free counts prescribes, and succeeds if and only if the classes it may use hold the request |
| `Segments.Segment.PutAllBack` | vpp-src/vpp/src/svm/fifo_segment.c:518-528 | pushing the gathered chunks back restores every free list exactly |
| `Segments.Segment.MultiChunk` | vpp-src/vpp/src/svm/fifo_segment.c:492-554 | fails if and only if the classes below hold fewer bytes than the request and the next larger class is empty, and then lists, ownership and counters are exactly as before; otherwise a null-terminated list of distinct chunks whose total and whose class-by-class remainder are functions of the free counts before; the byte counters stay exact if and only if that total is below 2^32, because the code sums it in 32 bits |
| `Allocation.LastClassIs` | vpp-src/vpp/src/svm/fifo_segment.c:493-513 | the greedy descent ends at the largest class such that it and the classes above hold the request |
| `Allocation.DescendTotal` | vpp-src/vpp/src/svm/fifo_segment.c:493-513 | what the descent hands out is the request rounded up to the size of the class at which it ends |
| `Allocation.MultiGrantIs` | vpp-src/vpp/src/svm/fifo_segment.c:492-554 | assembly fails if and only if the classes below are short of the request and the next larger class is empty; assembled, the total is the request rounded up to the class at which the descent ends, below twice a request above 4096; else it is one chunk of the next larger class |
| `Allocation.SecondBatchPositive` | vpp-src/vpp/src/svm/fifo_segment.c:699-706 | the batch size computed from a difference that may wrap, cut to 32 bits, is never zero where the code carves with it, for free lists of up to 2^44 bytes |
| `Segments.Segment.AllocFallback` | vpp-src/vpp/src/svm/fifo_segment.c:685-711 | succeeds if and only if, with enough bytes free, smaller chunks cover the request or the next larger class has a chunk, and with too few, the small chunks for the missing bytes fit; bytes handed out, chunks left in each class and byte index are functions of those before; what is handed out covers the request |
| `Segments.Segment.AllocChunk` | vpp-src/vpp/src/svm/fifo_segment.c:658-716 | succeeds if and only if its own class has a chunk or room for a batch, or the fallback can serve it, said in bytes free, room and limit; then a null-terminated list of distinct, previously free chunks with the computed total, remainder and byte index; it covers the request if and only if the request is at most 2^22 or its own class was unavailable; chunks in use are untouched; the byte counters stay exact if and only if the total is below 2^32 |
| `Allocation.AllocateCovers` | vpp-src/vpp/src/svm/fifo_segment.c:658-716 | a successful allocation covers the request if and only if the request is at most 2^22 or its own class has neither a chunk nor room for a batch, and exceeds it by less than 2^22 |
| `AllocationLaws.AllocateIff` | vpp-src/vpp/src/svm/fifo_segment.c:658-716 | an allocation succeeds if and only if the request's class has a chunk, or its data fits and so does a batch of 32, or of one where the data of 32 does not fit; or enough bytes are free and smaller chunks cover the request or the next class has a chunk; or too few are free and the small chunks for the missing bytes fit |
| `AllocationLaws.AllocateConserves` | vpp-src/vpp/src/svm/fifo_segment.c:589-716 | an allocation carves a stated number of chunks of one class, 32 or one of the request's own or small ones for the missing bytes, and moves the byte index over exactly these with their headers; bytes handed out and bytes left are the bytes there were and those carved |
| `AllocationLaws.CarveMisses` | vpp-src/vpp/src/svm/fifo_segment.c:678-688 | where one chunk fits, none is carved exactly when the data of 32 fits and their headers do not |
| `AllocationLaws.SecondTry` | vpp-src/vpp/src/svm/fifo_segment.c:690-711 | with enough bytes free that cannot be assembled, all the room is carved into small chunks and the request refused; the same request made again succeeds if and only if the small chunks now suffice |
| `AllocationLaws.RefusedThenServed` | vpp-src/vpp/src/svm/fifo_segment.c:690-711 | such a request: 8 kB of a slice with a chunk of 4 kB, one of 32 kB and room for one more is refused, and served when made again |
| `Segments.OversizeShort` | vpp-src/vpp/src/svm/fifo_segment.c:658-674 | in a fresh segment of 256 MB an allocation of 2^22 + 1 bytes succeeds and is given fewer bytes than that |
| `Segments.Miscounted` | vpp-src/vpp/src/svm/fifo_segment.c:510-553 | a segment carved full of 2048 chunks of 2 MB, with one byte to spare, is asked through the allocator for 2^32 - 1 bytes: it hands out 2^32, and its counters no longer match its lists |
| `Segments.Segment.Collect` | vpp-src/vpp/src/svm/fifo_segment.c:775-794 | exactly the chunks of the list return to the free lists of their classes, class by class; the byte counters stay exact if and only if the list holds fewer than 2^32 bytes, because the code sums them in 32 bits |
| `Segments.Segment.Conservation` | vpp-src/vpp/src/svm/fifo_segment.c:493-628 | in every valid state: chunks carved per class = chunks on the free list + chunks handed out; free-list bytes and cached bytes equal the exact sums over the lists; the 32-bit chunk counts never overflow |
| `ChunkTree.FindNode` | vpp-src/vpp/src/svm/svm_fifo.c:547-583 | the tree walk returns the floor node: exact key, right dead end, or the predecessor of a left dead end, under wrapped comparison; it is the node the recursion of Floor finds |
| `ChunkTree.FloorIs` | vpp-src/vpp/src/svm/svm_fifo.c:547-583 | the recursion that keeps the last node passed on the right finds the floor in every tree over a live run |
| `ChunkTree.InsertLast` | vpp-src/vpp/src/svm/svm_fifo.c:634-641 | adding the chunk behind the indexed run extends the in-order sequence by it |
| `ChunkTree.RemoveIndexes` | vpp-src/vpp/src/svm/svm_fifo.c:711-717 | deleting the node of chunk i leaves the other chunks indexed in order |
| `FifoLayout.PlaceChunks` | vpp-src/vpp/src/svm/svm_fifo.c:824-833 | gives a list of chunks consecutive start positions and cleared tree indices; touches no other chunk |
| `Fifos.MinAlloc` | vpp-src/vpp/src/svm/svm_fifo.c:371-388 | minimum growth is 4096 for sizes up to 32 KiB, an eighth of the size up to 512 KiB, 64 KiB beyond |
| `Fifos.Fifo.constructor` | vpp-src/vpp/src/svm/svm_fifo.c:371-388 | a new fifo has that minimum growth, no out-of-order data, empty lookup trees and no tree lookup |
| `Fifos.Fifo.Init` | vpp-src/vpp/src/svm/svm_fifo.c:371-405 | a freshly allocated chunk list becomes a valid fifo holding the empty stream |
| `Fifos.Fifo.InitLookup` | vpp-src/vpp/src/svm/svm_fifo.c:407-420 | tree lookup can be switched on for a side at any time |
| `Fifos.Fifo.CopyTo` | vpp-src/vpp/src/svm/svm_fifo.c:26-55 | writing across any number of chunk boundaries overwrites exactly positions [p, p + len), and the chunk returned is the one that holds p + len, null at the end of the list |
| `Fifos.Fifo.CopyFrom` | vpp-src/vpp/src/svm/svm_fifo.c:57-88 | reading across chunk boundaries returns exactly the bytes at [p, p + len) and the chunk that holds p + len |
| `Fifos.Fifo.FindChunk` | vpp-src/vpp/src/svm/svm_fifo.c:487-511 | the linear scan returns the chunk that includes the position, or null at the end |
| `Fifos.Fifo.FindTracked` | vpp-src/vpp/src/svm/svm_fifo.c:547-601 | the tree lookup returns the chunk of the linear scan, or the last indexed chunk if that one is not indexed yet |
| `Fifos.Fifo.UpdateLookup` | vpp-src/vpp/src/svm/svm_fifo.c:603-700 | with or without a tree the cached chunk becomes the one the linear scan finds; the indexed chunks stay one contiguous run from the tail chunk or the start chunk and reach no further than the accessed range |
| `Fifos.Fifo.ClearEnq` | vpp-src/vpp/src/svm/svm_fifo.c:702-734 | after the tail moved, the indexed run starts at the new tail chunk; it is empty when no out-of-order data is left; the new tail chunk is returned |
| `Fifos.Fifo.TryChunkAlloc` | vpp-src/vpp/src/svm/svm_fifo.c:808-844 | succeeds if and only if the allocation computed from the segment before hands out something; the list grows by exactly that, no less than the smallest growth within the window, covers the request and keeps every fifo invariant and other fifos' chunks; else the fifo is as it was |
| `FifoState.GrowthShare` | vpp-src/vpp/src/svm/svm_fifo.c:808-844 | the request is the larger of the bytes missing and the smallest growth within the window; it is served if and only if the segment can, by at least its size, and by less than twice that if its own class serves it with more than 4096 |
| `Fifos.Fifo.Finish` | vpp-src/vpp/src/svm/svm_fifo.c:882-895 | publishing moves the tail to the first position never written and returns the whole advance |
| `Fifos.Fifo.Enqueue` | vpp-src/vpp/src/svm/svm_fifo.c:846-896 | refines the byte stream: n bytes are stored at the tail, the tail moves to the first position never written, the result is the tail's advance, or full, or out of memory with nothing changed; n is a function of the window, the end of the chunk list and the segment's free chunks before; what the segment is left with is the outcome of that one allocation; no chunk leaks or is taken from others |
| `Fifos.Fifo.EnqueueWithOffset` | vpp-src/vpp/src/svm/svm_fifo.c:898-940 | all of the future segment is stored at its position, or nothing; full if and only if it exceeds the window, out of memory if and only if the list is too short and the allocation computed from the segment before fails; the tail stays; the segment list covers exactly the added interval |
| `Fifos.Fifo.EnqueueSegments` | vpp-src/vpp/src/svm/svm_fifo.c:971-1052 | with partial enqueue, the contract of Enqueue for the concatenation of the segments, number of bytes included; without, all or nothing, full if and only if the total exceeds the free space, out of memory if and only if the list is too short and growth fails |
| `Fifos.EnqueuedUnique` | vpp-src/vpp/src/svm/svm_fifo.c:971-1052 | the contract determines the number of bytes, the result and the stream from the state before: neither where the chunks lie nor in how many pieces the bytes are handed over matters |
| `Fifos.EnqueueBothWays` | vpp-src/vpp/src/svm/svm_fifo.c:846-1052 | on two fifos in the same state, enqueueing a list of segments on one and its concatenation on the other answers the same, takes equally many bytes and leaves two fifos in the same state |
| `Fifos.Fifo.UnlinkChunks` | vpp-src/vpp/src/svm/svm_fifo.c:1054-1103 | exactly the chunks before the one that holds the new head leave the list, never the last; they are given back, their tree nodes removed, a cached chunk at or before the new start forgotten |
| `FifoState.PassedExactly` | vpp-src/vpp/src/svm/svm_fifo.c:1054-1103 | the chunks given back end at or before the new head, and the first one kept holds it or is the last |
| `Fifos.Fifo.Dequeue` | vpp-src/vpp/src/svm/svm_fifo.c:1105-1139 | takes min(len, size) bytes: a consuming read of the byte stream; empty if and only if nothing is committed; exactly the chunks the head has passed leave the list, none in front of it but the last is kept, and they are back on the free lists of their classes; a chunk tracked for peeking may be there as long as none is unlinked |
| `FifoLookup.StaleRun` | vpp-src/vpp/src/svm/svm_fifo.c:1054-1103 | why: if a chunk is unlinked while the first chunk stays tracked, the tree indexes no run of the list any more, whatever the memory becomes |
| `Fifos.Fifo.DequeueDrop` | vpp-src/vpp/src/svm/svm_fifo.c:1168-1201 | the head advances by min(len, size) and nothing else of the stream changes; exactly the chunks it has passed, none in front of it but the last kept, are back on the free lists of their classes |
| `Fifos.Fifo.Peek` | vpp-src/vpp/src/svm/svm_fifo.c:1141-1166 | returns min(len, size - offset) bytes of the stream at head + offset without changing it; empty if and only if the offset is past the data |
| `Fifos.Fifo.NothingAtEnd` | vpp-src/vpp/src/svm/svm_fifo.c:1141-1166 | when the data fills the chunk list, no chunk includes the position one past it, so a peek with an offset of all the bytes finds no chunk |
| `Fifos.Fifo.Segments` | vpp-src/vpp/src/svm/svm_fifo.c:1283-1330 | the pieces returned concatenate to what the stream holds at head + offset; fewer bytes than asked for only when the pieces run out |
| `ByteQueue.ReadsUnique` | vpp-src/vpp/src/svm/svm_fifo.c:1141-1166 | two reads of equally many bytes at one position are equal, so the pieces of Segments are what Peek returns |
| `Fifos.Fifo.ProvisionChunks` | vpp-src/vpp/src/svm/svm_fifo.c:1244-1281 | the pieces returned are the memory of the positions from the tail on; full if and only if the window is too small; out of memory if and only if the list is too short and growth fails, with the list unchanged; no piece if and only if none was asked for |
| `Fifos.Fifo.FillChunkList` | vpp-src/vpp/src/svm/svm_fifo.c:1228-1242 | the list covers the whole capacity afterwards, or is unchanged because it was too short and growth failed: exactly then it reports an error |
| `Fifos.Fifo.Coverage` | vpp-src/vpp/src/svm/svm_fifo.c:1411-1421 | in every valid state the chunks are contiguous and cover [head, tail), at least one is kept, the tail chunk includes the tail and is null exactly when the tail is the end of the list, the head chunk is null or includes the head |
| `Fifos.Fifo.LiveOrder` | vpp-src/vpp/src/svm/svm_fifo.h:143-172 | all live positions, rounding overshoot included, span less than 2^31, so wrapped comparisons of any two agree with integer order |
| `Fifos.Fifo.LookupState` | vpp-src/vpp/src/svm/svm_fifo.c:1422-1455 | in every valid state the trees index contiguous runs from the tail chunk and from the start chunk, the enqueue tree is empty and its cache unset without out-of-order data, cached chunks are linked chunks |
| `Fifos.Fifo.ViewSound` | vpp-src/vpp/src/svm/svm_fifo.c:846-940 | everything below the tail is known and the tail itself is not |
| `FifoState.StoredAtTail` | vpp-src/vpp/src/svm/svm_fifo.c:874-895 | storing at the tail and collecting is one store step of the byte stream |
| `FifoState.StoredAhead` | vpp-src/vpp/src/svm/svm_fifo.c:926-937 | storing ahead of the tail is one store step of the byte stream that leaves the tail |
| `Fifos.EnqueueStep` | vpp-src/vpp/src/svm/svm_fifo.c:846-896 | an enqueue is a write step of the stream or leaves it unchanged, and returns at least what it copied |
| `Fifos.DropStep` | vpp-src/vpp/src/svm/svm_fifo.c:1168-1201 | a drop hands over exactly the bytes at the head |
| `ByteQueue.LastWriteWins` | vpp-src/vpp/src/svm/svm_fifo.c:26-88 | in every run, the byte held for a position is the one most recently written there, and positions never written hold none |
| `ByteQueue.DeliveredStream` | vpp-src/vpp/src/svm/svm_fifo.c:1105-1201 | in every run, what was delivered is the stream from 0 to the head, each byte the last one written for its position |
| `ByteQueue.PutExists` | vpp-src/vpp/src/svm/svm_fifo.c:882-895 | every write at any position has an outcome, with the tail at the first position never written |
| `ByteQueue.CommittedStable` | vpp-src/vpp/src/svm/svm_fifo.c:846-940 | committed bytes never change again |
| `FifoConcurrent.NextKeeps` | vpp-src/vpp/src/svm/svm_fifo.c:808-1139 | each of the 24 loads, lookups, copies, links and stores of producer and consumer keeps the invariant, whatever the other side is in the middle of |
| `FifoProducer.ProbeKeeps` | vpp-src/vpp/src/svm/svm_fifo.c:932-933 | the cached chunk, tried before any lookup, is a linked chunk, and is used only if it holds the position; a tree lookup starts at a tracked chunk |
| `FifoProducer.TrackKeeps` | vpp-src/vpp/src/svm/svm_fifo.c:603-650 | following links and adding them to the tree keeps one run of tracked chunks from the tail chunk on and ends with the chunk of the first byte cached, while the consumer unlinks chunks |
| `FifoProducer.ClearEndKeeps` | vpp-src/vpp/src/svm/svm_fifo.c:702-734 | when the tail is about to move, the tracked run starts at the new tail chunk, and nothing is tracked or cached if no out-of-order bytes are left |
| `FifoConcurrent.ExecutionRefines` | vpp-src/vpp/src/svm/svm_fifo.c:846-940 | whatever the interleaving, exactly the stores it completed and the bytes it handed over, in that order, form a sequential run of the byte stream that ends in the same stream and delivered the same bytes |
| `FifoConcurrent.Origin` | vpp-src/vpp/src/svm/svm_fifo.c:846-940 | every write is a request made earlier with no other in between: at the tail of that moment plus the offset, all bytes of the request ahead of the tail, at the tail as many as the window had room for unless growth failed, then as many as the list had room for |
| `FifoProgress.EnqueueOutcome` | vpp-src/vpp/src/svm/svm_fifo.c:808-940 | once the producer is idle again after a request, the request has been written by exactly one step, or it was given up because growth failed and it was ahead of the tail or the list ended at the tail |
| `FifoProgress.StepEnds` | vpp-src/vpp/src/svm/svm_fifo.c:846-940 | an enqueue ends only by completing its write or by that failure |
| `FifoProgress.EnqueueStartsIff` | vpp-src/vpp/src/svm/svm_fifo.c:855-861 | an enqueue goes ahead if and only if the window has room: for one byte at the tail, for all bytes ahead of it |
| `FifoProgress.GrowsIff` | vpp-src/vpp/src/svm/svm_fifo.c:808-844 | the list can grow if and only if it is too short and free chunks hold the bytes missing |
| `FifoProgress.EnqueueEnds` | vpp-src/vpp/src/svm/svm_fifo.c:808-940 | an enqueue takes at most 3 * size + 9 steps of the producer and is then over, whatever the consumer does in between |
| `FifoConcurrent.DeliveredRequested` | vpp-src/vpp/src/svm/svm_fifo.c:846-1139 | every delivered byte is the byte the producer was asked to write at that position, by the last completed write that covers it |
| `FifoConcurrent.DeliveredPrefix` | vpp-src/vpp/src/svm/svm_fifo.c:1105-1139 | in every reachable state the delivered bytes are the written stream up to the head, each the one most recently written for its position, and everything below the tail has been written |
| `FifoProgress.DequeueDelivers` | vpp-src/vpp/src/svm/svm_fifo.c:1105-1139 | every dequeue hands over min(len, bytes there when it loaded the tail) bytes, appended to what was delivered before, and the head moves over exactly these; no other dequeue comes in between |
| `FifoProgress.DequeueStartsIff` | vpp-src/vpp/src/svm/svm_fifo.c:1115-1117 | a dequeue goes ahead if and only if there are bytes below the published tail |
| `FifoProgress.DequeueEnds` | vpp-src/vpp/src/svm/svm_fifo.c:1054-1139 | a dequeue takes a bounded number of steps of the consumer and is then over, whatever the producer does in between |
| `FifoProgress.ChunksConserved` | vpp-src/vpp/src/svm/svm_fifo.c:808-1103 | in every run each chunk is free, linked, new at the producer or dropped at the consumer, exactly one of these, and none appears or is lost |
| `FifoConcurrent.CopiesApart` | vpp-src/vpp/src/svm/svm_fifo.c:26-88 | no byte at or past the published tail is read; no byte below it is overwritten |
| `FifoConcurrent.NoDangling` | vpp-src/vpp/src/svm/svm_fifo.c:1054-1139 | no chunk that either side can still dereference is collected: for the producer the last chunk, the tail chunk, the cached out-of-order chunk, every chunk in its lookup tree and the one it is at, and none of these is on its way to be collected |
| `FifoConcurrent.InitExists` | vpp-src/vpp/src/svm/svm_fifo.c:371-405 | the machine has a start for every fifo size, every first chunk, with and without tree lookup, so the statements over reachable states are not empty |
| `FifoConcurrent.ProducerAdvances` | vpp-src/vpp/src/svm/svm_fifo.c:808-940 | in every state that keeps the invariant, a producer in the middle of an enqueue has a next step: no chunk it follows or writes is missing |
| `FifoConcurrent.ConsumerAdvances` | vpp-src/vpp/src/svm/svm_fifo.c:1054-1139 | in every state that keeps the invariant, a consumer in the middle of a dequeue has a next step |
| `FreeListStack.NewHeadParts` | vpp-src/vpp/src/svm/fifo_segment.c:137-163 | the new head word carries the pushed offset and the tag plus one modulo 2^16 |
| `FreeListStack.SwapFresh` | vpp-src/vpp/src/svm/fifo_segment.c:198-221 | a swap that succeeds within 2^16 swaps of its load found the stack unchanged |
| `FreeListStack.NextKeeps` | vpp-src/vpp/src/svm/fifo_segment.c:137-221 | each load, link write and swap of push, push-list and pop by any thread keeps the invariant |
| `FreeListStack.Conservation` | vpp-src/vpp/src/svm/fifo_segment.c:137-221 | for any number of threads, with fewer than 2^16 swaps between a load and its swap: every chunk is on the list exactly once or held by exactly one thread, and the list is acyclic and null-terminated |
| `FreeListStack.StackStep` | vpp-src/vpp/src/svm/fifo_segment.c:137-221 | in time the list is an atomic stack: only swaps change it, and a swap takes effect if and only if no other did since its load; a push puts its chunks on top, a pop takes the top chunk |
| `FreeListStack.EmptyHanded` | vpp-src/vpp/src/svm/fifo_segment.c:191-206 | a pop comes back empty-handed if and only if the list was empty when it loaded the head |
| `FreeListStack.ThreadAdvances` | vpp-src/vpp/src/svm/fifo_segment.c:137-221 | a thread in the middle of a push or pop can always take its next step |
| `FreeListStack.WrapBreaks` | vpp-src/vpp/src/svm/fifo_segment.c:198-206 | the bound is tight: a run in which exactly 2^16 swaps fall between load and swap ends with a chunk that a thread holds at the head of the list |
| `BumpAllocator.RegionsDisjoint` | vpp-src/vpp/src/svm/fifo_segment.c:19-41 | for every interleaving of attempts, spurious failures included: regions are aligned, large enough, pairwise disjoint and below the limit |
| `BumpAllocator.GrantedInTurn` | vpp-src/vpp/src/svm/fifo_segment.c:19-41 | the regions are those of granting the requests one after another: each begins at the next multiple of its alignment behind its predecessor, and the index stands where the last one ends |
| `BumpAllocator.GoesOnIff` | vpp-src/vpp/src/svm/fifo_segment.c:27-40 | an attempt goes on, at the first load and after every failed swap, if and only if the request fits at the index found |
| `BumpAllocator.GrantedIff` | vpp-src/vpp/src/svm/fifo_segment.c:33-40 | a request is granted, and gets the next region, if and only if the index is still the one its thread saw |
| `BumpAllocator.Overtaken` | vpp-src/vpp/src/svm/fifo_segment.c:33-40 | a swap that must fail was overtaken by another request that was granted |
| `BumpAllocator.PartsDisjoint` | vpp-src/vpp/src/svm/fifo_segment.c:556-628 | equal parts cut from any regions never overlap |
| `SegmentFifos.AllocFifo` | vpp-src/vpp/src/svm/fifo_segment.c:727-761 | succeeds if and only if the size is allowed, a header is free or a batch of 32 headers of 192 bytes fits at a multiple of 64, and behind it the first allocation can be served; the fifo is then valid, empty, took only free chunks and one header, and starts with at least the given percentage of its size if the product fits 32 bits and the share is at most 2^22, with less than twice it if its own class serves it; a failure leaves everything in use and the header in place; for every percentage a byte can hold |
| `SegmentFifos.FirstAllocIff` | vpp-src/vpp/src/svm/fifo_segment.c:737-737 | the first allocation is the percentage of the size, at least 4096 bytes, if and only if their product is below 2^32 |
| `SegmentFifos.FirstAllocWraps` | vpp-src/vpp/src/svm/fifo_segment.c:737-737 | for all of a fifo of 2^30 bytes the 32-bit product is a multiple of 2^32 and the first allocation 4096 bytes |
| `SegmentFifos.FreeFifo` | vpp-src/vpp/src/svm/fifo_segment.c:923-946 | all chunks of the fifo, and no others, are back on the free lists of their classes, and its header is given back |
| `SegmentFifos.HeaderPool.Take` | vpp-src/vpp/src/svm/fifo_segment.c:640-656 | takes a free header, carving a batch of 32 if there is none, which is counted; fails if and only if none is free and 6144 bytes at a multiple of 64 do not fit |
| `SegmentFifos.OthersIntact` | vpp-src/vpp/src/svm/fifo_segment.c:775-803 | an operation on one fifo leaves every other fifo of the segment intact: its chunk list, its bytes and its lookup state |
| `SegmentFifos.FleetConserves` | vpp-src/vpp/src/svm/fifo_segment.c:590-628 | per slice and class: chunks carved = chunks on the free list + chunks linked in fifos, with exact byte counters |
| `SegmentRuns.Drive` | vpp-src/vpp/src/svm/fifo_segment.c:727-981 | over every sequence of fifo creation, enqueue, enqueue ahead, dequeue, drop, peek, lookup switch and free in one segment, recorded from the segment as it was to the segment and fifos as they are: a command is refused if and only if it is outside the domain of its operation; creation fails, enqueues report full or out of memory and dequeues report empty if and only if the record before says so; free chunks, byte index, headers, chunk lists and streams change as the operation prescribes; in the end every fifo is valid, each chunk handed out is linked in exactly one fifo, and counters and headers match |
| `SegmentRuns.CrewStep` | vpp-src/vpp/src/svm/fifo_segment.c:775-803 | an operation on one fifo keeps all fifos of the segment valid together |
| `SegmentRuns.CrewAccounted` | vpp-src/vpp/src/svm/fifo_segment.c:590-628 | the counters of the segment account for every chunk: on a free list or linked in one of the fifos in use |
| `SegmentRuns.TraceRuns` | vpp-src/vpp/src/svm/svm_fifo.c:846-1201 | the commands performed on a fifo are a run of the byte stream, with the positions, bytes and counts of the commands and their answers |
| `SegmentRuns.HandsOutLastWritten` | vpp-src/vpp/src/svm/svm_fifo.c:1105-1201 | every byte a dequeue or peek hands out is the one most recently written for its position by the commands before it |
| `MsgQueueWakeup.ProdKeeps` | vpp-src/vpp/src/svm/message_queue.c:343-358 | every producer step keeps the wakeup invariant |
| `MsgQueueWakeup.ConsKeeps` | vpp-src/vpp/src/svm/message_queue.c:399-418 | every consumer step keeps the wakeup invariant |
| `MsgQueueWakeup.NoLostWakeup` | vpp-src/vpp/src/svm/message_queue.c:186-218 | over every run: a parked producer implies a full queue or a pending broadcast, a parked consumer an empty queue or a producer's pending broadcast, the queue never over- or underflows, and the threads never all sleep |
| `MsgQueueWakeup.SizeCounts` | vpp-src/vpp/src/svm/message_queue.c:343-418 | in every run the size is the number of messages added less the number taken |
| `MsgQueueWakeup.NeverStuck` | vpp-src/vpp/src/svm/message_queue.c:186-218 | in every state of every run some thread that is awake can take a step; nothing but the mutex ever stops one |
| `MsgQueueOrder.NextKeeps` | vpp-src/vpp/src/svm/message_queue.c:220-418 | each step of producers and consumer keeps the ring and queue invariant |
| `MsgQueueOrder.NextInOrder` | vpp-src/vpp/src/svm/message_queue.c:291-305 | the message to free is always at its ring's head |
| `MsgQueueOrder.LiveApart` | vpp-src/vpp/src/svm/message_queue.c:220-236 | live messages of a ring occupy different slots |
| `MsgQueueOrder.DeliveredInOrder` | vpp-src/vpp/src/svm/message_queue.c:291-318 | over every run messages come out once each, in allocation order, and the out-of-order branch is unreachable |
| `MsgQueueOrder.NoLiveReuse` | vpp-src/vpp/src/svm/message_queue.c:220-236 | no slot of a message still being written, queued or read is allocated again |
| `MsgQueueProgress.AllocatesIff` | vpp-src/vpp/src/svm/message_queue.c:238-262 | in every state of every run: under the lock an allocation goes ahead if and only if messages added and not taken are fewer than the queue holds and live ones of the ring fewer than its slots, counting those half-way out; it is given up exactly otherwise |
| `MsgQueueProgress.TakesIff` | vpp-src/vpp/src/svm/message_queue.c:399-418 | the consumer can take a message if and only if one has been added and counted that is not taken |
| `MsgQueueProgress.FreesIff` | vpp-src/vpp/src/svm/message_queue.c:291-318 | it can free one if and only if it holds one |
| `MsgQueueProgress.ProducerAdvances` | vpp-src/vpp/src/svm/message_queue.c:238-397 | the holder of the lock can always take its next step, and a free lock can be taken |
| `MsgQueueProgress.TurnEnds` | vpp-src/vpp/src/svm/message_queue.c:238-397 | every step of the holder shortens its turn, at most six steps, and nobody else touches it |
| `MsgQueueProgress.BooksCount` | vpp-src/vpp/src/svm/message_queue.c:220-418 | in every run the books count the allocations, additions, takes and frees made |
| `MsgQueueOrder.ValidIffLive` | vpp-src/vpp/src/svm/message_queue.c:320-341 | in every state of every run, for rings of up to 2^31 slots: the test accepts exactly the live messages if and only if the ring's last message is not half-way freed and its only slot not half-way allocated |
| `MsgQueueOrder.ValidAt` | vpp-src/vpp/src/svm/message_queue.c:320-341 | what the test says in the two other states: half-way freed it accepts every slot though none is live, half-way allocated it rejects the live one |
| `MsgQueueOrder.ExactIffNarrow` | vpp-src/vpp/src/svm/message_queue.c:335-340 | with its 32-bit distances the test is exact for every settled state of a ring if and only if the ring has at most 2^31 slots |
| `MsgQueueOrder.LiveRejected` | vpp-src/vpp/src/svm/message_queue.c:335-340 | 2^30 messages in a ring of 3 * 2^30 slots: the last one is live and rejected |
| `MsgQueueOrder.AddedValid` | vpp-src/vpp/src/svm/message_queue.c:391-397 | in every run the message about to be added passes the test, if and only if the slots of its ring and the distance from head to tail do not add up to exactly 2^32 |
| `MsgQueueBatch.TakesAre` | vpp-src/vpp/src/svm/message_queue.c:399-418 | k single takes move the head by k and return the descriptors in ring order |
| `MsgQueueBatch.MsgQueue.SubRaw` | vpp-src/vpp/src/svm/message_queue.c:399-418 | one take, as the specification of repeated takes says |
| `MsgQueueBatch.MsgQueue.SubRawBatch` | vpp-src/vpp/src/svm/message_queue.c:420-452 | for every queue whose size fits its 32-bit field: messages and final indices equal those of min(n, size) single takes, across the wrap |
| `MsgQueueBatch.TestExactIff` | vpp-src/vpp/src/svm/message_queue.c:431-435 | the 32-bit test for a batch that stays in front of the end is right for every head and batch if and only if the queue has at most 2^31 descriptors; every queue whose size fits its 32-bit field is smaller |
| `MsgQueueLayout.StrideExact` | vpp-src/vpp/src/svm/message_queue.c:92-97 | the 32-bit distance to the next ring is the ring's real size if and only if that is below 2^32 |
| `MsgQueueLayout.RingsTouch` | vpp-src/vpp/src/svm/message_queue.c:88-98 | a ring ends where the next begins if and only if its size was not cut |
| `MsgQueueLayout.SizeToAlloc` | vpp-src/vpp/src/svm/message_queue.c:103-127 | the size is headers, descriptors and in-line ring data |
| `MsgQueueLayout.WithinAllocation` | vpp-src/vpp/src/svm/message_queue.c:71-127 | the laid-out rings fit the allocated size if and only if no ring keeps its data elsewhere; they exceed it by exactly that data |
| `MsgQueueLayout.ExternalOverruns` | vpp-src/vpp/src/svm/message_queue.c:71-127 | one ring of four 256-byte elements kept elsewhere is laid out 1024 bytes past the allocation |
| `MsgQueueLayout.WellPlacedIff` | vpp-src/vpp/src/svm/message_queue.c:71-127 | descriptors end by the first ring, each ring by the next, the last by the end of the allocation, if and only if no size is cut to 32 bits and no ring keeps data elsewhere |
| `MsgQueueLayout.SharedQueue.Init` | vpp-src/vpp/src/svm/message_queue.c:71-101 | every ring header is written at its place and none overwrites another |
| `MsgQueueLayout.SharedQueue.Attach` | vpp-src/vpp/src/svm/message_queue.c:143-167 | attaching recovers every ring's item count, element size and place from memory |
| `MsgQueueLayout.RingsDisjoint` | vpp-src/vpp/src/svm/message_queue.c:71-127 | rings are disjoint, behind the queue and inside the allocation |
| `MsgQueueLayout.CutRingOverlaps` | vpp-src/vpp/src/svm/message_queue.c:92-97 | a ring of 2^16 items of 2^16 bytes overlaps its successor |

## Left out

- Red-black balancing: the tree library is not part of this model; the trees are binary search trees whose
  in-order sequence is what lookups depend on.
- Pool index choice: the slot of a new out-of-order segment is a parameter that must be unused.
- Chunk free lists in `Segment` are sequences; their links and tags are in `FreeListStack` only.
- Fifo headers are counted, not laid out; their fields are those of the class.
- Fifos.Fifo.Dequeue: requires that at most one chunk is tracked for peeking, as the source asserts, and that a tracked
  chunk is not unlinked; `StaleRun` shows what the tree would be otherwise.
- Fifos.Fifo.Peek: requires an offset whose position lies in some chunk; `NothingAtEnd` shows that there is none at the
  very end of the list.
- Fifos.Fifo.Enqueue: growth requests above 2^22 bytes are outside the domain, because the allocator may not cover
  them.
- Fifos.Fifo.EnqueueWithOffset: the same bound on growth requests.
- Fifos.Fifo.EnqueueSegments: the same bound on growth requests; segments are non-empty, as the copy assumes.
- FifoConcurrent: enqueue of several segments, peek and drop are not steps of the concurrent machine. Whether the
  producer uses tree lookup is fixed in a run. Growth may fail even where free chunks would do: the segment's allocator is
  not part of the machine.
- SegmentRuns.Drive: commands run one at a time. Those outside the domain of their operation are refused: growth by more
  than 2^22 bytes, peeks at the very end of the chunk list, in-order dequeues with peek lookup switched on. How the bytes
  of one growth are split into chunks is recorded, not prescribed.
- MsgQueueWakeup: waiting for a full ring, eventfd mode, timed waits and recovery from a dead lock owner.
- MsgQueueBatch.MsgQueue.SubRawBatch: queues whose size is cut to 32 bits (2^29 descriptors and more), which the layout
  cannot place either.
- MsgQueueLayout.SharedQueue.Attach: at least one ring; the source sizes its vector by the ring count minus one.
- MsgQueueLayout: structure sizes are those of a 64-bit Linux build; padding inside rings is not modelled.
- svm_fifo_set_size, init_pointers, enqueue_nocopy, clone, overwrite_head, dequeue_drop_all, subscribers, tracing.
- Fifo attach and detach between slices, preallocated pairs, memory limits and watermarks.
- Mapping of shared memory, region files and process handling; the older queue; socket interposition and API clients.
