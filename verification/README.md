# Crossbar: a verified model of its shared-memory protocols

Crossbar moves messages between processes through a memory-mapped region. This project models its
three lock-free protocols and the code around them, and proves what they promise.

* **Block pool and rings.** Payload blocks come from a Treiber free list, through a cache of eight
  blocks and a one-block recycle slot per publisher. A publish stores a block index in a ring slot
  guarded by a sequence word; readers take references by counting.
* **PodBus.** A broadcast ring of stamped slots, with one publisher. It loses old values for slow
  subscribers, or in bounded mode refuses to publish past the slowest one.
* **Pinned publish.** One block per topic, written in place under a writer sentinel that excludes
  registered readers.

Each protocol is a transition system with one step per atomic access, any number of threads, and
theorems about every state of every run (`FreeList`, `Ring*`, `Bus`, `Bounded*`, `Pinned`). Whole
calls are methods of objects over arrays (`Pool`, `Shm`, `PodBus`, `Topics`, `Payload`). The
objects of `Shm` carry a ghost run of the step protocol that ends in the state their arrays show,
so each call is shown to be a sequence of protocol steps and inherits everything proved of runs.

| file | content |
|---|---|
| `words.dfy`, `sums.dfy` | bit operations on naturals; sums over sequences |
| `layout.dfy` | offsets, sizes, head packing, URI hash |
| `freelist.dfy`, `pool.dfy` | the free list, concurrent and as an object |
| `ring.dfy` | the ring protocol, step by step |
| `ring_inv.dfy`, `ring_counts.dfy`, `ring_local.dfy`, `ring_commit.dfy` | its invariant and preservation |
| `ring_safety.dfy`, `ring_bound.dfy` | what it guarantees |
| `ring_ops.dfy`, `region.dfy` | whole calls: closed forms and objects |
| `ring_calls.dfy` | what a receive answers under interleaving |
| `ring_overtake.dfy` | when an older claim overwrites a newer message |
| `bus.dfy`, `bounded.dfy`, `bounded_calls.dfy`, `slotword.dfy`, `podbus.dfy` | PodBus: lossy, back-pressured, what its calls answer, slot words, objects |
| `pinned.dfy`, `topics.dfy`, `payload.dfy` | pinned publish, topic table, payload bytes |

## Assumptions

* Each atomic access is one step and steps are sequentially consistent. PodBus payloads are
  written and read word by word, in any order.
* The 32-bit generation of the free list does not come round within one operation
  (`GenerationFresh`). `FreeList.WrapBreaksTheList` gives a run of 2^32 exchanges that shows this is
  needed, and `FreeList.StaleMatchNeedsWrap` shows that nothing less is.
* The ring protocol uses the free list through whole pushes and pops, which
  `FreeList.StepsRefineStack` justifies.
* Ring sequences stay below the `SEQ_WRITING` sentinel, PodBus sequences below 2^62, pinned
  sequences below 2^32, and fewer than 2^32 - 1 pinned readers are registered at once. Ring
  refcounts are unbounded.
* A topic is published by the creator of the region alone, or by publishers that opened it alone;
  nobody force-claims a slot.
* A pinned topic has one publisher. Other publishers may use every other block, and the pinned one
  once it is freed and handed out again.
* In bounded PodBus the publisher does not write to the ring while a live subscriber is between
  loading its start cursor and storing its ACTIVE word; looking at one table slot is one step;
  process liveness is reported truthfully, process ids are not reused, and only claims of dead
  processes are pruned.
* Clocks and process liveness are arguments.

## Where the code does not do what one would expect

* A receive can miss the newest message although no commit is in progress: a commit of an opened
  publisher takes the slot without comparing sequences, so a claim that is a lap behind (`ring_depth`
  newer claims were made while it waited) overwrites a newer message
  (`RingOvertake.NewestMessageCanBeLost`). Taking a slot loses a readable message exactly if the
  claim is a lap behind (`RingOvertake.MarkLosesExactlyWhenLate`). If no claim ever is, the ring is a
  bounded log, also for opened publishers (`RingOvertake.InLapTopicIsBoundedLog`).
* Dropping a publisher frees its pinned blocks without looking at the readers. A live guard's bytes
  then change once the pool hands the block out again
  (`Pinned.DroppedPublisherChangesGuard`). They can change exactly from then on
  (`Pinned.GuardChangesExactlyAfterReuse`) and stay fixed until then (`Pinned.GuardStaysFixed`).
* A pinned loan that is written to and dropped unpublished leaves its bytes under the old sequence,
  so a later guard can show bytes that were never published (`Pinned.DroppedLoanSpoilsGuard`).
  Without such a drop since the last publish a guard shows that publish.
* A dropped subscriber first frees its slot and then clears the slot's process id. If somebody takes
  the slot in between, the clear erases the new subscriber's process id, and if that one crashes no
  scan frees its slot (`BoundedCalls.CrashedCanStay`). The scan frees a crashed subscriber's slot
  exactly if it still shows a process id (`BoundedCalls.CrashedIsPrunedExactly`), which it does unless
  there was such a late clear (`BoundedCalls.SlotShowsItsPid`).
* `write_structured` stores the entry count in 32 bits. With zero-sized entries a longer list
  reads back shorter (`Payload.ZeroSizedEntriesAreLost`); `Payload.ArrayRoundTrip` gives the
  exact condition for the round trip.
* The documentation of the PodBus receive says a lagging subscriber moves to the oldest data
  still available. That holds when it skips ahead after loading the head
  (`Bus.SkipPassesNothingAvailable`). When the slot is overwritten during the call it moves past the
  newest stamp instead and leaves out values that are still in the ring
  (`Bus.RacedReceiveSkipsAvailable`); this happens exactly if the stamp is stable but not the
  cursor's (`Bus.VerifyPassesAvailable`).

## Model

| member | source | states |
|---|---|---|
| `FreeList.EveryRunKeepsTheList` | src/protocol/region.rs:106-204 | In every interleaving of head loads, link accesses and exchanges the list is acyclic, duplicate-free and in bounds, and each block is on it or owned by exactly one thread. |
| `FreeList.NeverCorrupt` | src/protocol/region.rs:114-124 | The corruption result is unreachable from an initialised pool. |
| `FreeList.MatchIsCurrent` | src/protocol/region.rs:143-151 | An exchange that succeeds found the head and the link as they are now: no ABA. |
| `FreeList.StepsRefineStack` | src/protocol/region.rs:106-189 | Every step is an atomic push, an atomic pop installing the true successor, or a stutter, and touches no other thread's blocks. |
| `FreeList.EmptyHandedSawEmptyList` | src/protocol/region.rs:106-153 | An allocation that ends without a block saw the list empty at a moment of the call, in every interleaving. |
| `FreeList.WrapBreaksTheList` | src/protocol/region.rs:126-151 | A run from an initialised pool reaches a state in which the generation came round within one allocation, its exchange would succeed on a stale link, and the list would then hold a block another thread owns. |
| `FreeList.StaleMatchNeedsWrap` | src/protocol/region.rs:143-151 | A stale snapshot matches the head exactly if the generation came round and the same block is on top. |
| `Pool.FreePool.constructor` | src/protocol/region.rs:191-204 | Initialisation links all blocks upwards from block 0 and clears every refcount. |
| `Pool.FreePool.AllocBlock` | src/protocol/region.rs:106-153 | On a well-formed list allocation takes the top block, or reports an empty pool; out-of-bounds words are reported and change nothing. |
| `Pool.FreePool.FreeBlock` | src/protocol/region.rs:168-189 | Freeing puts the block on top of the list with the next generation; an index out of bounds is ignored. |
| `RingSafety.StepKeeps` | src/protocol/region.rs:297-437 | Every atomic step of publishers, streams and samples keeps the protocol invariant. |
| `RingSafety.EveryRunKeepsInv` | src/protocol/region.rs:297-437 | The invariant holds in every state of every run with any number of publishers and subscribers. |
| `RingSafety.CountsExactInEveryRun` | src/protocol/region.rs:378-408 | A refcount equals ring slots naming the block plus stream references, samples and in-flight commits; an unreferenced block rests in exactly one place, a referenced one in none. |
| `RingSafety.ReferencedIsNowhere` | src/protocol/region.rs:378-437 | A block with references is not free, cached, recycled, pinned or loaned. |
| `RingSafety.HeldBlockIsNowhere` | src/platform/subscription.rs:105-181 | The block of a live sample is counted and is not free, cached, recycled, pinned or loaned. |
| `RingSafety.SampleCarriesItsMessage` | src/platform/subscription.rs:126-175 | From receipt to drop a sample shows exactly the block, length and bytes committed under its sequence. |
| `RingSafety.RunGrows` | src/protocol/region.rs:308-392 | What was committed under a sequence never changes, and a dropped sample stays dropped. |
| `RingSafety.DeliveredIncreases` | src/platform/subscription.rs:76-100 | One stream's receives from the ring have strictly increasing sequences in every interleaving, also with pinned receives on the same stream in between. |
| `RingCalls.ScanStarts` | src/platform/subscription.rs:76-91 | A receive starts exactly if the stream has not caught up, and its window is exactly what is unread and among the last ring_depth sequences. |
| `RingCalls.CallAnswers` | src/platform/subscription.rs:76-181 | In every interleaving a receive that returns nothing found every sequence of its window not shown at a moment of the call; one that returns q did so for every earlier one, and q is shown at its end. |
| `RingCalls.NothingFromBefore` | src/platform/shm.rs:1018-1020 | A stream delivers only sequences claimed after it subscribed. |
| `RingSafety.NoPartyIsStuck` | src/protocol/region.rs:395-437 | No decrement meets a zero refcount and no commit leaves its ring. |
| `RingSafety.QuietWindow` | src/protocol/region.rs:308-392 | With no commit in progress a recent sequence is readable exactly if no pinned publish consumed it and no older claim overtook it. |
| `RingSafety.CreatorNeverOvertaken` | src/protocol/region.rs:342-343 | On topics of the creator nothing is overtaken. |
| `RingOvertake.NewestMessageCanBeLost` | src/protocol/region.rs:344-376 | A run of two opened publishers after which the newest message is published but not readable. |
| `RingOvertake.NewerMeansLate` | src/protocol/region.rs:344-376 | Only a claim that is a lap behind finds a newer sequence in its slot. |
| `RingOvertake.NothingOvertakenInLap` | src/protocol/region.rs:308-376 | If no claim on a topic takes its slot a lap behind, nothing of the topic is overtaken, in any run. |
| `RingOvertake.InLapTopicIsBoundedLog` | src/platform/subscription.rs:76-100 | Then a receive returns the oldest unread of the last ring_depth messages, and nothing exactly when caught up, for any number of opened publishers. |
| `RingOvertake.MarkLosesExactlyWhenLate` | src/protocol/region.rs:344-376 | With no other claim in flight and nothing lost or pinned before, taking the slot loses a readable message exactly if the claim is a lap behind. |
| `RingBound.ExhaustedOnlyWhenInUse` | src/platform/shm.rs:339-395 | When the only working publisher finds no block, the pool is no larger than published topics times ring depth plus what readers hold. |
| `RingOps.LoneLoanSucceeds` | src/platform/shm.rs:375-395 | With more blocks than that, the only working publisher of a region without pinned topics always finds one, after any history, also one in which others opened the region and were dropped. |
| `RingOps.MarkedSlotHasWriter` | src/protocol/region.rs:342-392 | In every run a slot reads SEQ_WRITING only while a publisher is writing it. |
| `RingOps.NextSlotIsOlder` | src/protocol/region.rs:308-376 | With no commit in progress the next slot is closed and holds nothing newer, so marking it never waits. |
| `RingOps.LoanKeeps` | src/platform/loan.rs:90-138 | A loan keeps the bytes last written and the length last set and touches no other block. |
| `RingOps.MarkPhase` | src/protocol/region.rs:308-376 | Claiming a sequence and marking its slot are protocol steps with this combined effect. |
| `RingOps.FillPhase` | src/protocol/region.rs:378-392 | Reading the old block, counting the new one and storing the entry are protocol steps with this combined effect, and log the message. |
| `RingOps.ReleasePhase` | src/protocol/region.rs:394-408 | The displaced block loses one reference; the last one moves it to the recycle slot and the slot's content to the pool. |
| `RingOps.ShownIsLive` | src/platform/subscription.rs:126-165 | A slot that shows a sequence names a referenced block in bounds and a length that fits. |
| `RingOps.AcquirePhase` | src/platform/subscription.rs:126-175 | From a matching slot the receive runs through and takes one reference. |
| `RingOps.FindsOldestUnread` | src/platform/subscription.rs:76-100 | With no commit in progress a receive finds the oldest unread readable sequence, and nothing exactly when there is none. |
| `RingOps.KeptTopicIsBoundedLog` | src/platform/subscription.rs:76-100 | If nothing of a topic was pinned or overtaken, a receive with no commit in progress reads a bounded log. |
| `RingOps.CreatorTopicIsBoundedLog` | src/platform/subscription.rs:76-100 | On a creator topic without pinned publishes a receive returns the oldest unread of the last ring_depth messages, and nothing exactly when caught up. |
| `RingOps.DropPhase` | src/protocol/region.rs:426-437 | Dropping a sample removes one reference; the last one frees the block. |
| `RingOps.RetirePhase` | src/platform/shm.rs:916-930 | Dropping a publisher returns its pinned, recycled and cached blocks to the pool, in this order, and keeps none. |
| `Shm.Region.constructor` | src/protocol/region.rs:191-204 | A created region shows the initial state of the protocol: empty rings, zero refcounts, every block free. |
| `Shm.Region.ReleaseBlock` | src/protocol/region.rs:426-437 | The arrays afterwards show the state after the sample's reference was dropped, freed with the last one. |
| `Shm.Publisher.Create` | src/platform/shm.rs:527-541 | The creating publisher starts with empty cache and recycle slot. |
| `Shm.Publisher.Open` | src/platform/shm.rs:575-589 | Opening adds a publisher that owns nothing. |
| `Shm.Publisher.AllocCached` | src/platform/shm.rs:339-370 | Succeeds exactly if recycle slot, cache or pool holds a block; takes the recycled block first, then the newest cached one, then refills from the pool; failing changes nothing. |
| `Shm.Publisher.Refill` | src/platform/shm.rs:350-369 | Moves up to eight blocks from the pool to the cache, topmost first, and takes the last of them. |
| `Shm.Publisher.WriteLoan` | src/platform/loan.rs:99-138 | Writing a loan changes the loaned block's bytes and the loan's length only. |
| `Shm.Publisher.PinnedBlock` | src/platform/shm.rs:843-851 | A topic's pinned block is the same in every call; the first call takes a block exactly like any allocation and keeps it for the topic. |
| `Shm.Publisher.PinBlock` | src/platform/shm.rs:847-850 | The block is kept at its topic's place and is owned by the publisher in the protocol. |
| `Shm.Publisher.DropLoan` | src/platform/loan.rs:230-235 | An unpublished loan's block returns to the pool. |
| `Shm.Publisher.CommitToRing` | src/protocol/region.rs:297-408 | The block becomes the topic's next message with refcount 1, the displaced block is released or recycled, nothing else changes, and the call is a run of protocol steps. |
| `Shm.CommitPublishes` | src/protocol/region.rs:297-408 | After a commit the slot of the next sequence and the log show the loaned block and length; payloads, streams, samples and other publishers are unchanged. |
| `Shm.RecycledIsNext` | src/protocol/region.rs:394-408 | A displaced block nobody else held is the next block this publisher loans. |
| `Shm.CommitThenReceive` | src/platform/subscription.rs:76-100 | A stream that had caught up receives exactly the block, length and bytes just committed. |
| `Shm.Publisher.Drop` | src/platform/shm.rs:916-930 | Every block the publisher kept goes back to the pool. |
| `Shm.Stream.constructor` | src/platform/shm.rs:1017-1034 | A new stream starts after the newest sequence. |
| `Shm.Stream.TryRecv` | src/platform/subscription.rs:76-100 | Returns the first sequence of the window that its slot shows, with its block and length and one more reference; otherwise nothing, and nothing changes. |
| `Shm.Stream.TryReadSlot` | src/platform/subscription.rs:105-181 | Reads a slot exactly if it shows the wanted sequence. |
| `Bus.EveryRunKeepsInv` | src/platform/pod_bus.rs:558-587 | The stamp protocol's invariant holds in every interleaving of word writes and word reads. |
| `Bus.VerifyDelivers` | src/platform/pod_bus.rs:927-972 | A read whose stamp checks out at the cursor is the published value of that sequence, never a mix. |
| `Bus.DeliveryIsExact` | src/platform/pod_bus.rs:912-973 | Each returned value is the value published under its sequence, sequences strictly increase, and the cursor moved by delivered plus lagged. |
| `Bus.LagNeverUnderflows` | src/platform/pod_bus.rs:927-967 | Below the head the never-written case is unreachable and a loaded even stamp is never below the cursor's. |
| `Bus.VerifyBound` | src/platform/pod_bus.rs:954-967 | A stable even stamp belongs to a sequence at or above the cursor that was written. |
| `Bus.CommittedOrNewer` | src/platform/pod_bus.rs:558-587 | The slot of a published sequence shows it or something newer. |
| `Bus.ReceiveStarts` | src/platform/pod_bus.rs:912-925 | A receive goes on exactly if the cursor is below the head, at the oldest sequence the ring can hold. |
| `Bus.EmptyReceiveWasOverwritten` | src/platform/pod_bus.rs:927-967 | In every run a receive that went on ends without a value only if the ring then no longer holds the sequence it was after. |
| `Bus.StartsAtHead` | src/platform/pod_bus.rs:872-872 | A subscriber starts where the publisher was when it connected. |
| `Bus.SkipPassesNothingAvailable` | src/platform/pod_bus.rs:919-925 | Skipping ahead after loading the head passes over nothing that is still in the ring. |
| `Bus.VerifyPassesAvailable` | src/platform/pod_bus.rs:954-967 | The verified read passes over data still in the ring, without returning it, exactly if the stamp is stable but not the cursor's. |
| `Bus.RacedReceiveSkipsAvailable` | src/platform/pod_bus.rs:954-967 | A run in which an overwrite during the call makes the subscriber move past two values still in the ring. |
| `Bounded.EveryRunKeepsInv` | src/platform/pod_bus.rs:531-661 | The back-pressure invariant holds in every run with connects, crashes, drops and pruning. |
| `Bounded.LosslessInEveryRun` | src/platform/pod_bus.rs:531-587 | A subscriber has received exactly the published log from its start, in order, with no lag; while live it is at most ring_size - watermark behind and its next slot is intact. |
| `Bounded.ReceiveNeverFails` | src/platform/pod_bus.rs:912-973 | A live subscriber below the head is never turned away, and never skips. |
| `Bounded.UnreadStays` | src/platform/pod_bus.rs:558-587 | A sequence at most one ring behind everything written still sits in its slot. |
| `Bounded.CacheIsInvisible` | src/platform/pod_bus.rs:531-554 | The cached slowest cursor never exceeds an active cursor, so the cached test passes only if every active subscriber is close enough. |
| `Bounded.ScanIsLowerBound` | src/platform/pod_bus.rs:593-661 | A completed scan's minimum bounds every active cursor, also those that joined during the scan. |
| `BoundedCalls.AttemptStarts` | src/platform/pod_bus.rs:531-540 | An attempt to publish goes ahead with its value because every active subscriber is close enough, or scans the table for it. |
| `BoundedCalls.FullExactly` | src/platform/pod_bus.rs:531-661 | A scan inspects every slot and its call reports Full exactly if an inspection saw a live subscriber ring_size - watermark behind; otherwise the publish goes ahead with its value. |
| `BoundedCalls.BehindMeansFull` | src/platform/pod_bus.rs:531-554 | An active slot that far behind at the end of the scan makes the result Full. |
| `Bounded.SlotOwnership` | src/platform/pod_bus.rs:1065-1096 | Two live subscribers never share a table slot, and an owned slot shows its owner's cursor or one less. |
| `Bounded.OwnedCursorGrows` | src/platform/pod_bus.rs:999-1006 | While owned, an ACTIVE slot's cursor only grows. |
| `Bounded.DeadPidIsUnowned` | src/platform/pod_bus.rs:636-645 | Pruning a dead process's slot frees no live subscriber's slot. |
| `BoundedCalls.ConnectFailsOnlyIfTaken` | src/platform/pod_bus.rs:1065-1096 | Connecting fails only if every slot of the table was taken when it was tried. |
| `BoundedCalls.ActiveHasSubscriber` | src/platform/pod_bus.rs:1023-1036 | An ACTIVE slot belongs to a subscriber that has connected and not dropped, so a departed one holds nobody back. |
| `BoundedCalls.SlotShowsItsPid` | src/platform/pod_bus.rs:1083-1090 | Unless a dropped subscriber clears the process id of a slot somebody took again, every live subscriber's slot shows its process id. |
| `BoundedCalls.CrashedIsPrunedExactly` | src/platform/pod_bus.rs:636-645 | The scan frees a crashed subscriber's slot exactly if it still shows a process id, and otherwise counts it as live. |
| `BoundedCalls.CrashedCanStay` | src/platform/pod_bus.rs:1023-1036 | A run in which a late clear of the process id leaves a crashed subscriber's slot that no scan frees. |
| `SlotWord.RoundTrip` | src/platform/pod_bus.rs:1049-1052 | Packing state and value fits 64 bits and is lossless exactly for values below 2^62. |
| `PodBus.SlowestDecides` | src/platform/pod_bus.rs:531-554 | Some live subscriber is too far behind exactly when the slowest one is. |
| `PodBus.ReceiveAnswers` | src/platform/pod_bus.rs:912-973 | The cursor moves by the value returned plus the lag counted; the value is the oldest unread one in the ring; nothing comes back exactly if caught up or the cell at the window's start is being overwritten. |
| `PodBus.LookIsReceive` | src/platform/pod_bus.rs:927-972 | The decision taken on the loaded cell is what the log prescribes, also with a publish in progress. |
| `PodBus.SweepExact` | src/platform/pod_bus.rs:609-645 | A scan frees slots of crashed subscribers and claims older than five seconds, and leaves every other slot as it is. |
| `PodBus.Shared.constructor` | src/platform/pod_bus.rs:356-485 | A new ring shows the empty log and a table of FREE slots. |
| `PodBus.Publisher.PublishUnchecked` | src/platform/pod_bus.rs:558-587 | The value becomes the newest of the log and the ring shows the last ring_size values. |
| `PodBus.Publisher.SlowestSubscriberCursor` | src/platform/pod_bus.rs:593-661 | Returns the least cursor of the live active slots and frees exactly the stale ones. |
| `PodBus.Publisher.TryPublish` | src/platform/pod_bus.rs:531-554 | Full exactly when a full scan finds a live subscriber ring_size - watermark behind; otherwise the value is appended and nobody live is further behind than that. |
| `PodBus.Subscriber.ClaimSubscriberSlot` | src/platform/pod_bus.rs:1065-1096 | Takes the first FREE slot and shows pid and cursor there; fails exactly when none is FREE. |
| `PodBus.Subscriber.TryRecv` | src/platform/pod_bus.rs:912-973 | With or without a publish in progress: cursor moved equals lag plus values returned, a value is the log's at the sequence passed, none comes back exactly if caught up or being overwritten, and the cursor is reported. |
| `PodBus.Subscriber.UpdateShmCursor` | src/platform/pod_bus.rs:999-1006 | The publisher reads the cursor back from the subscriber's slot, every other slot is unchanged, and still no slot is ahead of the publisher. |
| `PodBus.Subscriber.Drop` | src/platform/pod_bus.rs:1023-1036 | The slot is FREE again and counts for no scan; no other slot changes. |
| `PodBus.Subscriber.Drain` | src/platform/pod_bus.rs:912-973 | With no publish in progress, draining yields exactly the last min(ring_size, published - cursor) values in order and counts the remainder as lag. |
| `Pinned.EveryRunKeepsInv` | src/platform/shm.rs:853-867 | The exclusion invariant holds in every interleaving, with loans published or dropped and the publisher dropped at any time. |
| `Pinned.WriterExcludesReaders` | src/platform/shm.rs:853-867 | The reader word is the sentinel exactly while the writer is active, with no reader registered; otherwise it counts the registered readers. |
| `Pinned.GuardStaysFixed` | src/platform/subscription.rs:289-358 | Until its block is handed out again after the drop of the publisher, a guard's length and bytes stay fixed for its life, and are those of the publish whose sequence it recorded unless a written loan was dropped since. |
| `Pinned.EveryRunOrdered` | src/platform/subscription.rs:299-349 | In every run a loaded pinned word is newer than what its stream took and no newer than the current one. |
| `Pinned.GuardsIncrease` | src/platform/subscription.rs:304-349 | No stream takes a publish twice: its guards have strictly increasing sequences, also with ring receives in between. |
| `Pinned.ReceiveStarts` | src/platform/subscription.rs:295-306 | A pinned receive goes on exactly if the pinned word is newer than what the stream took last. |
| `Pinned.EmptyReceiveMetWriter` | src/platform/subscription.rs:308-347 | One that went on ends without a guard only if a writer is active then or a newer publish replaced the word it loaded. |
| `Pinned.LoanSucceedsExactly` | src/platform/shm.rs:853-867 | A pinned loan succeeds exactly if no reader is registered, and otherwise changes nothing. |
| `Pinned.LoanKeeps` | src/platform/loan.rs:360-398 | A pinned loan keeps the bytes last written and the length last set up to its publish. |
| `Pinned.PublishCarries` | src/protocol/region.rs:243-258 | A pinned publish makes exactly the loan's bytes and length readable, under a sequence used once. |
| `Pinned.GuardIsSafeWhilePublisherLives` | src/platform/shm.rs:916-921 | While the publisher is there its block has no other user. |
| `Pinned.GuardChangesExactlyAfterReuse` | src/platform/shm.rs:916-921 | With a live guard, some step changes the bytes it shows exactly if its block was freed by the drop of the publisher and handed out again. |
| `Pinned.GuardCanChange` | src/platform/shm.rs:916-921 | Every run with a live guard and an idle publisher goes on to one in which the guard is live and shows other bytes. |
| `Pinned.DroppedPublisherChangesGuard` | src/platform/shm.rs:916-921 | A run in which the bytes of a live guard change after the publisher was dropped. |
| `Pinned.DroppedLoanSpoilsGuard` | src/platform/loan.rs:473-481 | A run in which a guard taken after a written loan was dropped shows bytes that were never published. |
| `Pinned.LeavingIsSafe` | src/platform/subscription.rs:653-657 | Leaving readers and dropped guards never decrement zero or the sentinel. |
| `Layout.PoolOffsetsAgree` | src/protocol/layout.rs:101-119 | Whenever the checked region size exists, checked and unchecked pool offset agree. |
| `Layout.PoolOffsetExists` | src/protocol/layout.rs:101-107 | The checked pool offset exists exactly if header, topic entries and rings fit 64 bits. |
| `Layout.RegionSizeExists` | src/protocol/layout.rs:115-119 | The checked region size exists exactly if the whole region fits 64 bits, and is its size. |
| `Layout.PartsInside` | src/protocol/layout.rs:85-119 | Header, topic entries, ring entries and blocks at all valid indices lie inside the region. |
| `Layout.PartsDisjoint` | src/protocol/region.rs:62-84 | Any two of them are disjoint. |
| `Layout.PackExact` | src/protocol/layout.rs:132-141 | Packing and unpacking the head is lossless. |
| `Layout.PackInjective` | src/protocol/layout.rs:132-141 | Two packed heads are equal exactly if generation and index are. |
| `Layout.UriHash` | src/protocol/layout.rs:121-128 | The loop computes 64-bit FNV-1a of the bytes. |
| `Layout.FoldBack` | src/protocol/layout.rs:121-128 | Each folding step can be undone: the hash and the last byte give the hash before it. |
| `Layout.KnownHashes` | src/protocol/layout.rs:121-128 | The hashes of the empty text and of "a" are the published FNV-1a values. |
| `Topics.TopicTable.RegisterInner` | src/platform/shm.rs:623-709 | Behind the hash prefilter, registering answers what a plain byte comparison answers, and adds at most one entry. |
| `Topics.TopicTable.SubscribeTo` | src/platform/shm.rs:991-1038 | Finds a topic exactly if a plain byte comparison does, and starts at its write_seq. |
| `Topics.RegisteringExact` | src/platform/shm.rs:623-709 | Too long exactly above 64 bytes; otherwise the entry holding the URI, or the first free one, and the table is full exactly if there is neither. |
| `Topics.RegisterFills` | src/platform/shm.rs:677-696 | A new entry holds the URI, its type size and sequence 0; nothing else changes. |
| `Topics.SubscribeCounts` | src/platform/shm.rs:1024-1027 | Subscribing counts the subscriber at the topic found and changes nothing else. |
| `Topics.FindIsUnique` | src/platform/shm.rs:623-709 | The entry found for a URI is the only one holding it. |
| `Topics.HistoryKeeps` | src/platform/shm.rs:623-709 | After any sequence of calls active URIs are pairwise distinct. |
| `Topics.IndexIsStable` | src/platform/shm.rs:623-709 | Once registered at an index, a URI stays there with its type size through every later call; registering it again returns the index and changes nothing. |
| `Topics.SubscribeFindsRegistered` | src/platform/shm.rs:991-1038 | Subscribe finds an index exactly if an earlier registration of that URI returned it. |
| `Payload.Loan.SetData` | src/platform/loan.rs:99-124 | The block then starts with the data, or the call fails and changes nothing. |
| `Payload.Loan.WriteStructured` | src/platform/loan.rs:153-195 | The block holds header, entries and count, or the call fails and no byte of the block changes. |
| `Payload.Loan.Write` | src/platform/loan.rs:237-254 | Appends what fits, and fails exactly when nothing of a non-empty buffer does. |
| `Payload.NontemporalCopy` | src/platform/loan.rs:28-54 | Head, aligned 16-byte chunks and tail are one plain copy for every length and alignment, and every streaming store is aligned. |
| `Payload.CountRoundTrip` | src/platform/loan.rs:189-191 | The little-endian count reads back. |
| `Payload.LeBytesAre` | src/platform/loan.rs:189-191 | Byte k of the stored count is its k-th least significant byte. |
| `Payload.HeaderRoundTrip` | src/platform/subscription.rs:496-506 | A written header reads back exactly if the mapping is aligned for its type. |
| `Payload.EntryAt` | src/platform/loan.rs:167-187 | Entry k is stored k entry sizes behind the header. |
| `Payload.ReadHeaderExact` | src/platform/subscription.rs:496-506 | A header is read exactly from a sample that is long enough and aligned, whoever wrote it. |
| `Payload.ReadArrayExact` | src/platform/subscription.rs:517-545 | An array is read exactly if header, counted entries and count fill the sample and the entries are aligned; entry k is the bytes at its place. |
| `Payload.ArrayRoundTrip` | src/platform/subscription.rs:517-545 | Written entries read back exactly if the array is aligned and entries are not zero-sized or fewer than 2^32. |
| `Payload.ZeroSizedCount` | src/platform/subscription.rs:517-545 | Zero-sized entries read back as their number modulo 2^32. |
| `Payload.ZeroSizedEntriesAreLost` | src/platform/loan.rs:189-191 | 2^32 unit entries read back as none. |

## Left out

- Mapping, file locks, names, inode checks, heartbeats and clocks: calls into the operating system.
- Blocking receives, futex wake-ups and wait strategies: timing; freedom from lost wake-ups is not claimed.
- Hardware memory ordering, prefetching, the fence of the streaming copy: outside a sequentially consistent model.
- The force-claim branch of a commit, and creator and opened publishers on one topic: slot exclusion does not hold there.
- Pinned topics with several publishers: the recheck does not cover them.
- Typed loans and samples: the same protocol with a fixed size.
- The discovery registry, channels, foreign-function bindings, configuration and error types: tables, wrappers and constants.
- Shm.Publisher.CommitToRing: one call runs undisturbed, so the retries of the exchange are modelled only in `Ring`.
- Shm.Stream.TryReadSlot: one call runs undisturbed, so the failing second check and the undo are modelled only in `Ring`.
- PodBus.Subscriber.TryRecv: the torn-read retry needs a publisher moving inside the call, so it is modelled only in `Bus`.
- Payload.ReadArrayExact: samples are shorter than 2^64 bytes, and an entry count whose byte size does not fit 64 bits is refused; only entry types over 4 GiB reach that.
- PodBus.Subscriber.ClaimSubscriberSlot: the exchange does not compete with other claims inside one call; `Bounded` models that.
