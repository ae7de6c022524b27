# Models of Flyte's shared libraries and engine edges

Flyte's engine rests on a few small components that are easy to use and hard to get right: a
concurrent auto-refresh cache, a byte cache in front of a blob store, a bit-packed array, a lossy
"have I sent this?" filter with the event sink above it, the downloader that lays out a workflow's
inputs as files, the manager that keeps the sharded propeller pods alive, a weighted random list, an
asynchronous future and a tuning loop. This project models their behaviour in Dafny, one module for
each component, and proves what each is for.

| module | component |
|---|---|
| `AutoRefreshMachine` | the auto-refresh cache as a state machine: every access to the LRU map, the marks, the delete set, the queue and the lock is one step, and the steps of all clients, workers and the enqueue loop interleave |
| `AutoRefreshDelete`, `AutoRefreshTerminal`, `AutoRefreshOnce`, `AutoRefreshMarks`, `AutoRefreshPlaces` | invariants of all its runs |
| `AutoRefreshPromises`, `AutoRefreshRaces` | for each promise, the exact condition under which all runs keep it, with the runs that break it otherwise |
| `AutoRefreshCache` | the cache object, method by method; each call is a run of one thread of the machine |
| `CacheCoherence` | the cached blob store under concurrency, with evictions and failing cache writes |
| `BlobStore`, `ErrorChain` | the in-memory store, the cached store, CopyRaw, the protobuf store, and the walk along the causes of an error |
| `BitArray`, `Powers` | bit sets and compact arrays over 32-bit blocks |
| `OppoBloom` | the filter, as compare-and-swap steps |
| `EventIdentity`, `Text`, `EventSink` | identities of events, and the sink over whole runs |
| `Paths`, `Download` | path cleaning and joining; path assignment and literal rewriting |
| `PodManager` | one reconciliation round against a cluster |
| `WeightedRandom`, `AsyncFuture`, `Tuning` | weighted selection, the one-token future, the tuning loop |

Code that changes state step by step is a class or a method with loops, proved against a function of
the old state; what the component promises is then proved about that function. Concurrent code is a
state machine: `Enabled` says which events are possible, `Step` is the effect of one event, and `Run`
and `Final` fold it over a list of events, so a statement about all lists of events is a statement
about all interleavings. Every lemma carries `{:induction false}`: inductions are written out as
recursive calls, and none is left to the verifier.

Statements marked "exact" below hold if and only if the stated condition does.

## Where the code does not do what its documentation says

* The comment on the processing map (`in_memory_auto_refresh.go:104-105`) promises that no two workers
  process the same item. A worker unmarks the ids of a batch before it calls back, so the next round
  queues them again; the promise holds exactly with at most one worker: `ItemsAreUnsharedIff`.
* A terminal value is absorbing exactly when there are no workers, or one worker and a GetOrCreate whose
  lookup and insertion are one step, which they are not: `AbsorbingIff`. If no item is created twice, as
  the documentation asks, it is absorbing exactly when there is at most one worker: `AbsorbingOnceIff`.
* An evicted item can come back although nobody creates it again, in every configuration with a worker:
  `EvictedComesBack`. A deleted one cannot: `DeletedStaysDeleted`.
* Queueing before marking (`in_memory_auto_refresh.go:245-248` and `293-296`) lets queue and marks
  disagree: `AgreementIff`, `StaleMark`, `QueuedTwice`. The five-period timeout of `inProcessing` exists
  to heal a stale mark. What remains true of the code is that no item waits in two batches, provided that
  creations do not queue: `QueuedApartIff`.
* Leaves get paths of their own inside the output directory only if the variable names are ordinary ones;
  names with slashes or dot-dots can clash or lead out. `PathsClashIff` and `LeavesApartIff` say exactly
  when they clash, `ContainedPathIff` and `AlwaysContainedIff` exactly when they lead out, all four for all
  names.
* With a parallelism below one the tuning loop never ends: `TuneDynamic`, `IdleTurn`.
* `Ready` is documented as "the future is completed", after which Get should not block; a second Get
  blocks forever, because the one token is gone: `ReadyMeansSent`.
* An overwrite whose cache write fails leaves the old bytes readable: `FailedOverwriteIsStale`.
* `Add` reports an empty id as seen before on its first call: `AddReportsSeenIff`.
* Event identities are unique only without colons in the names: `ColonClash`.
* Only three digest bytes enter the filter's hash, so no index exceeds 18615 and the rest of a larger
  table is never used: `IndexInRange`.
* The pod manager never succeeds while an unlabelled pod holds a managed name: `CreatePods`.
* A negative minimal difference makes the tuning loop give up its best trial:
  `AlwaysTracksBestIff`.

## Model

| member | source | states |
|---|---|---|
| AutoRefreshDelete.StepKeepsLockInv | flytestdlib/cache/in_memory_auto_refresh.go:203-219 | every step of every thread keeps the lock discipline: only the holder is between Lock and Unlock, and only the holder can have an insertion pending that follows a Contains check |
| AutoRefreshDelete.DeletedStaysDeleted | flytestdlib/cache/in_memory_auto_refresh.go:364-383 | no resurrection: after a Delete has removed a key, no interleaving of clients, any number of workers, sweeps and evictions brings it back before GetOrCreate inserts it |
| AutoRefreshDelete.ResurrectionIffPutPending | flytestdlib/cache/in_memory_auto_refresh.go:203-211 | exact: an absent key can come back without GetOrCreate iff an Update of it is between its Contains check and its insertion |
| AutoRefreshTerminal.StepKeepsInv | flytestdlib/cache/in_memory_auto_refresh.go:344-378 | with one worker and no outside Update, every step keeps: whatever the worker is still going to write replaces a non-terminal value, and nothing twice |
| AutoRefreshTerminal.TerminalIsAbsorbing | flytestdlib/cache/in_memory_auto_refresh.go:344-378 | in every such run, whatever else the threads call and even with stale batches queued, a terminal value is what the cache holds at any later time as long as its key stays in the cache and no creation that missed it earlier inserts it late |
| AutoRefreshOnce.StepKeepsInv | flytestdlib/cache/in_memory_auto_refresh.go:231-240 | in the documented use, where no item is created twice, every step keeps: an item that is in the cache, or about to be stored by an Update, is not being created any more; so nothing is inserted late |
| AutoRefreshOnce.OneWorkerAbsorbsOnce | flytestdlib/cache/in_memory_auto_refresh.go:231-240 | so with one worker terminal values are absorbing although a creation takes two steps |
| AutoRefreshMarks.StepKeepsInv | flytestdlib/cache/in_memory_auto_refresh.go:262-300 | if a creation queues and marks in one step, or does not queue, then while nothing is deleted, evicted or expired every step keeps: no id is held twice, by queued batches and workers that have not yet unmarked it; each held id is marked or is going to be before the loop goes on; and if the loop marks each batch as it queues it, each marked id is held |
| AutoRefreshMarks.QueueStaysApart | flytestdlib/cache/in_memory_auto_refresh.go:288-297 | in every state of every such run the queued batches are pairwise disjoint and without repetitions, although the loop marks after queueing and workers unmark in between |
| AutoRefreshMarks.QueueAndMarksAgree | flytestdlib/cache/in_memory_auto_refresh.go:334-358 | if the loop marks each batch as it queues it, they are marked, too, and when no worker is in the middle of unmarking, the marked ids are exactly the queued ones |
| AutoRefreshPromises.ItemsAreUnsharedIff | flytestdlib/cache/in_memory_auto_refresh.go:104-106 | exact, for every configuration with room for an item and every set of worker threads: in all runs no two threads are about to call back on the same item iff there is at most one worker |
| AutoRefreshPromises.TwoWorkersHoldSameItem | flytestdlib/cache/in_memory_auto_refresh.go:344-364 | for every configuration, a run of one client, the loop and any two workers after which both workers are about to call back on the same item |
| AutoRefreshPromises.AbsorbingIff | flytestdlib/cache/in_memory_auto_refresh.go:344-378 | exact, for every configuration with room for an item and every set of worker threads, over all runs in which clients create non-terminal items and never call Update, and callbacks answer each id of their batch at most once and no other: terminal values never change while their keys are in the cache iff there is no worker, or there is one and creation is atomic |
| AutoRefreshPromises.AbsorbingOnceIff | flytestdlib/cache/in_memory_auto_refresh.go:231-240 | exact, over those of these runs in which no item is created twice, creation being atomic or not: iff there is at most one worker |
| AutoRefreshPromises.EvictedComesBack | flytestdlib/cache/in_memory_auto_refresh.go:203-211 | for every configuration with room for an item and every non-empty set of worker threads, a run from the new cache after which an evicted key is absent, an Update of it is about to store, and it comes back without GetOrCreate |
| AutoRefreshPromises.TwoWorkersReopenTerminal | flytestdlib/cache/in_memory_auto_refresh.go:364-378 | for every configuration, a run of one client, the loop and any two workers in which a terminal value is replaced by a non-terminal one |
| AutoRefreshPromises.SplitCreateReopensTerminal | flytestdlib/cache/in_memory_auto_refresh.go:233-240 | for every configuration without atomic creation, a run of two clients, the loop and one worker in which a late insertion replaces a terminal value |
| AutoRefreshPromises.AgreementIff | flytestdlib/cache/in_memory_auto_refresh.go:233-300 | exact, for every configuration with room for an item: queue and marks agree in all calm runs iff the loop marks a batch as it queues it and so does a creation, or creations do not queue |
| AutoRefreshPromises.QueuedApartIff | flytestdlib/cache/in_memory_auto_refresh.go:233-300 | exact, for every configuration with room for an item, whether or not the loop marks as it queues: in all calm runs the queued batches are pairwise disjoint and without repetitions iff a creation queues and marks in one step, or does not queue |
| AutoRefreshPromises.StaleMark | flytestdlib/cache/in_memory_auto_refresh.go:291-297 | whenever the loop marks after queueing, a calm run leaves a marked id which no batch and no thread holds |
| AutoRefreshPromises.QueuedTwice | flytestdlib/cache/in_memory_auto_refresh.go:239-249 | whenever creations queue and are not atomic, a calm run of two clients leaves two batches with the same id |
| AutoRefreshCache.ExecutionIsRun | flytestdlib/cache/in_memory_auto_refresh.go:98-117 | what a method of the object performs is a run of the machine from its call to its return, so the machine's theorems apply to it |
| AutoRefreshCache.NewInMemoryAutoRefresh | flytestdlib/cache/in_memory_auto_refresh.go:120-164 | fails iff the size is zero; otherwise the cache is new and empty |
| AutoRefreshCache.InMemoryAutoRefresh.Update | flytestdlib/cache/in_memory_auto_refresh.go:203-211 | overwrites the item and answers true iff it is in the cache; is a machine run |
| AutoRefreshCache.InMemoryAutoRefresh.Delete | flytestdlib/cache/in_memory_auto_refresh.go:214-219 | removes the key from the map and from the delete set, and nothing else; is a machine run |
| AutoRefreshCache.InMemoryAutoRefresh.DeleteDelayed | flytestdlib/cache/in_memory_auto_refresh.go:255-258 | only flags the key; the item stays readable; is a machine run |
| AutoRefreshCache.InMemoryAutoRefresh.Get | flytestdlib/cache/in_memory_auto_refresh.go:221-229 | the item, or the not-found error iff it is absent |
| AutoRefreshCache.InMemoryAutoRefresh.GetOrCreate | flytestdlib/cache/in_memory_auto_refresh.go:233-251 | an existing item is returned and nothing changes; otherwise the item is inserted, one other entry is evicted iff the cache was full, and if the cache syncs on creation the item is queued in a batch of its own and marked with the current time; is a machine run |
| AutoRefreshCache.InMemoryAutoRefresh.InProcessing | flytestdlib/cache/in_memory_auto_refresh.go:393-404 | exact, in clock and period: a key is in processing iff it has a mark at most five periods old; otherwise its mark, if any, is dropped, and no other mark changes |
| AutoRefreshCache.InMemoryAutoRefresh.TakeSnapshot | flytestdlib/cache/in_memory_auto_refresh.go:265-284 | collects, each once, exactly the items that are not terminal, not flagged, and unmarked or marked more than five periods ago, and drops exactly their marks; deletes exactly the flagged items; in a loop over the keys; is the first part of a machine run |
| AutoRefreshCache.DueKeysAre | flytestdlib/cache/in_memory_auto_refresh.go:269-284 | deciding key by key while the structures change gives the keys that were due at the start, each once |
| AutoRefreshCache.AfterKeysIs | flytestdlib/cache/in_memory_auto_refresh.go:269-284 | the round's effect on the structures does not depend on the order of the keys |
| AutoRefreshCache.InMemoryAutoRefresh.QueueBatches | flytestdlib/cache/in_memory_auto_refresh.go:291-297 | the loop queues each batch and marks each id, leaving the state of AfterBatches |
| AutoRefreshCache.AfterBatchesIs | flytestdlib/cache/in_memory_auto_refresh.go:291-297 | afterwards every batch waits unchanged under an address of its own, the older ones still wait and no others do; the marks are the old ones and those of the batches' ids, which carry the current time; nothing else changes |
| AutoRefreshCache.InMemoryAutoRefresh.EnqueueBatches | flytestdlib/cache/in_memory_auto_refresh.go:262-300 | one whole round: the snapshot is exactly those items, the callback's batches of it are queued and marked, a failing callback queues nothing; is a machine run |
| AutoRefreshCache.InMemoryAutoRefresh.TakeBatch | flytestdlib/cache/in_memory_auto_refresh.go:334-358 | takes the batch off the queue, unmarks all its ids, and keeps exactly the places of the batch whose items are in the cache and not terminal, in order |
| AutoRefreshCache.InMemoryAutoRefresh.StoreAnswers | flytestdlib/cache/in_memory_auto_refresh.go:373-378 | each item that is still there ends with the value of its last answer, or its own if it has none; no key comes or goes |
| AutoRefreshCache.AnsweredIs | flytestdlib/cache/in_memory_auto_refresh.go:373-378 | the same for the specification that SyncOnce is stated with |
| AutoRefreshCache.InMemoryAutoRefresh.DeleteFlagged | flytestdlib/cache/in_memory_auto_refresh.go:380-383 | the sweep removes exactly the flagged items and ends with an empty delete set, in any order |
| AutoRefreshCache.InMemoryAutoRefresh.SyncOnce | flytestdlib/cache/in_memory_auto_refresh.go:334-385 | one turn of a worker: the whole new state, including that nothing is stored or deleted when nothing is left to ask about or the callback fails; is a machine run |
| AutoRefreshCache.SingleItemBatches | flytestdlib/cache/in_memory_auto_refresh.go:419-426 | one batch of one item for each item, in order |
| CacheCoherence.StepKeepsCoherent | flytestdlib/storage/cached_rawstore.go:54-110 | each access of a reader, writer or copier, each failure and each eviction keeps "cached bytes equal store bytes", as long as no reference is written twice or deleted |
| CacheCoherence.WriteOnceReadsAreTruthful | flytestdlib/storage/cached_rawstore.go:37-110 | in every interleaving of a write-once run, however many evictions and failing cache writes, every answer of Head and ReadRaw agrees with the underlying store when it is given |
| CacheCoherence.WriteOnceContentIsStable | flytestdlib/storage/cached_rawstore.go:92-110 | and what a reference held once it holds in every later state of the run |
| CacheCoherence.WriteKeepsCoherenceIff | flytestdlib/storage/cached_rawstore.go:92-110 | exact, without the write-once rule: a store write (also that of CopyRaw) keeps coherence iff the cache and all pending cache writes of the reference hold the new bytes or nothing |
| CacheCoherence.DeleteKeepsCoherenceIff | flytestdlib/storage/cached_rawstore.go:113-122 | exact: the store part of a Delete keeps coherence iff no entry and no pending cache write of the reference is left |
| CacheCoherence.ReadsAreAuthentic | flytestdlib/storage/cached_rawstore.go:54-110 | with overwrites, copies and deletes in any order, a read returns only bytes that were in the store under that very reference |
| CacheCoherence.ReadAlone | flytestdlib/storage/cached_rawstore.go:54-89 | from every state, an undisturbed read answers the cached bytes, or the bytes of the store, which it caches unless the cache write fails, or nothing if there are none |
| CacheCoherence.HeadAlone | flytestdlib/storage/cached_rawstore.go:37-51 | from every state, an undisturbed Head answers for the cached bytes, or for the store |
| CacheCoherence.CopyAlone | flytestdlib/storage/copy_impl.go:33-65 | from every state, an undisturbed copy leaves the bytes of the source in the store at the destination and the cache as it was; a copy of nothing changes nothing |
| CacheCoherence.DeleteAlone | flytestdlib/storage/cached_rawstore.go:113-122 | from every state, an undisturbed Delete leaves nothing under the reference, in cache or store |
| CacheCoherence.FailedOverwriteIsStale | flytestdlib/storage/cached_rawstore.go:103-107 | a single client that overwrites a cached reference while the cache write fails reads the old bytes afterwards |
| ErrorChain.IsCausedBy | flytestdlib/errors/error.go:95-123 | ends on every chain and is true iff some link of the chain carries the code |
| ErrorChain.CausesAre | flytestdlib/errors/error.go:95-123 | exact, for every kind of error: which codes are found for it, its own code and those of its cause |
| ErrorChain.WrapKeepsCauses | flytestdlib/errors/error.go:70-78 | exact: wrapping adds its own code to the codes that are found, and loses none |
| BlobStore.InMemoryStore.Head | flytestdlib/storage/mem_store.go:47-61 | existence and size of the stored bytes |
| BlobStore.InMemoryStore.ReadRaw | flytestdlib/storage/mem_store.go:80-89 | the stored bytes, or the not-exist error |
| BlobStore.InMemoryStore.WriteRaw | flytestdlib/storage/mem_store.go:105-117 | replaces the bytes of one reference and no other |
| BlobStore.InMemoryStore.Delete | flytestdlib/storage/mem_store.go:92-103 | removes one reference, or reports that it does not exist |
| BlobStore.OverlaidWrite | flytestdlib/storage/cached_rawstore.go:92-110 | exact: readers see a write, and the two maps agree after it, iff the cache write succeeds or there was no older entry (or it held the same bytes) |
| BlobStore.CachedRawStore.Head | flytestdlib/storage/cached_rawstore.go:37-51 | existence and size of what readers see |
| BlobStore.CachedRawStore.ReadRaw | flytestdlib/storage/cached_rawstore.go:54-89 | returns what readers see, changes nothing they see, and keeps coherence; with a failed cache write it returns the bytes together with an error caused by the cache, and no other error comes with bytes |
| BlobStore.CachedRawStore.WriteRaw | flytestdlib/storage/cached_rawstore.go:92-110 | the bytes always reach the store; exactly when readers see them and when coherence is kept; an error is always caused by the cache |
| BlobStore.CachedRawStore.Delete | flytestdlib/storage/cached_rawstore.go:113-122 | readers no longer see the reference, everything else is as before |
| BlobStore.CachedRawStore.Evict | flytestdlib/storage/cached_rawstore.go:30-34 | an eviction from a coherent cache changes nothing that readers see |
| BlobStore.CopyRaw | flytestdlib/storage/copy_impl.go:33-65 | over a store whose cache writes may both fail, succeeds iff the source exists, and then the store holds at the destination what readers saw at the source |
| BlobStore.ProtobufStore.ReadProtobuf | flytestdlib/storage/protobuf_store.go:35-67 | gives the decoded content or an error, the same whether or not the cache write fails |
| BlobStore.ProtobufStore.WriteProtobuf | flytestdlib/storage/protobuf_store.go:69-88 | succeeds iff the message can be marshalled, whatever the cache does; on an error nothing has changed |
| BlobStore.ProtobufStore.WriteThenRead | flytestdlib/storage/protobuf_store.go:35-88 | exact: the written message comes back iff the cache write succeeds, or there was no older entry, or the older entry decodes to the same message; so for write-once references always |
| BitArray.BlockBits | flytestdlib/bitarray/bitset.go:16-41 | setting or clearing one bit of a 32-bit block by or, and, and complement changes that bit and no other |
| BitArray.BitSet.constructor | flytestdlib/bitarray/bitset.go:73-80 | a new set is empty and has the least number of blocks for its capacity |
| BitArray.BitSet.Set | flytestdlib/bitarray/bitset.go:16-23 | adds one bit and no other, however many blocks it has to append |
| BitArray.BitSet.Clear | flytestdlib/bitarray/bitset.go:26-31 | removes one bit and no other, and never grows |
| BitArray.BitSet.IsSet | flytestdlib/bitarray/bitset.go:34-41 | membership, also beyond the last block |
| Powers.BitsNeededIsLeast | flytestdlib/bitarray/compact_array.go:21-23 | the width of the items is the least that fits the largest value |
| BitArray.NewCompactArray | flytestdlib/bitarray/compact_array.go:124-136 | refuses exactly the values that need 64 bits or more; otherwise all items read as zero and every value up to the maximum fits |
| BitArray.CompactArray.SetItem | flytestdlib/bitarray/compact_array.go:39-56 | exact panic condition; otherwise the items are those before with one replaced, across block borders and growth |
| BitArray.CompactArray.GetItem | flytestdlib/bitarray/compact_array.go:59-75 | exact panic condition; otherwise the item of the plain sequence |
| BitArray.CompactArray.GetItems | flytestdlib/bitarray/compact_array.go:78-86 | the plain sequence |
| BitArray.CompactArray.DeepCopy | flytestdlib/bitarray/compact_array.go:100-121 | equal items over a bit set of its own |
| BitArray.WrittenItems | flytestdlib/bitarray/compact_array.go:39-56 | overwriting the bits of one position updates exactly that item of the decoded sequence |
| BitArray.CompactArray.SetAll | flytestdlib/bitarray/compact_array.go:39-86 | any run of valid writes leaves the array as the same run leaves a plain sequence |
| BitArray.LastWriteWins | flytestdlib/bitarray/compact_array.go:39-86 | after such a run an item is the last value written to it, or what it was before if there is none |
| OppoBloom.Sum32 | flytestdlib/fastcheck/oppobloom.go:36-44 | the 32-bit loop computes the weighted sum of three digest bytes, without wrap-around, at most 18615 |
| OppoBloom.TableSize | flytestdlib/fastcheck/oppobloom.go:107-121 | exact error conditions; otherwise the least power of two that is at least the requested size |
| Powers.AndMask | flytestdlib/fastcheck/oppobloom.go:55-61 | a mask of ones gives the remainder by its power of two, so it keeps a value below that power and leaves smaller values alone |
| OppoBloom.IndexInRange | flytestdlib/fastcheck/oppobloom.go:55-61 | the index is the remainder of the weighted sum of three digest bytes by the table size; it lies in the table, and below 18616 |
| OppoBloom.AccessRefinesExchange | flytestdlib/fastcheck/oppobloom.go:83-105 | every load or compare-and-swap is invisible or is one atomic exchange of the slot whose answer compares the old content |
| OppoBloom.NewOppoBloomFilter | flytestdlib/fastcheck/oppobloom.go:107-121 | exact error conditions; otherwise an empty filter whose masked digests all fall into its table |
| OppoBloom.NoFalsePositives | flytestdlib/fastcheck/oppobloom.go:63-105 | in every interleaving of Add calls each non-empty slot shows an id that was added and hashes to it, and Contains is true iff the slot of the id shows that id |
| OppoBloom.UndisturbedAdd | flytestdlib/fastcheck/oppobloom.go:63-105 | an Add that nobody disturbs succeeds with its first compare-and-swap, and Contains is then true for its id |
| OppoBloom.AddAlone | flytestdlib/fastcheck/oppobloom.go:63-105 | from every state an idle thread can begin an Add and, undisturbed, complete it in two accesses |
| OppoBloom.AddReportsSeenIff | flytestdlib/fastcheck/oppobloom.go:63-66 | exact: Add answers "seen" iff the slot showed the id, or was empty and the id is empty |
| EventIdentity.IdentityReads | flytepropeller/events/admin_eventsink.go:115-135 | the identity of each kind of message is the text of the format: which fields, in which order, with colons between |
| EventIdentity.SameIdIff | flytepropeller/events/admin_eventsink.go:115-135 | exact, for all messages: two identities are equal iff the printed fields, cut at every colon, form the same list |
| EventIdentity.IdentityIsInjective | flytepropeller/events/admin_eventsink.go:115-135 | without colons in the names, messages of any kinds with the same identity are of one kind and agree on every printed field |
| EventIdentity.ColonClash | flytepropeller/events/admin_eventsink.go:118-124 | with colons they can clash: every node event shares its identity with a workflow event |
| Text.JoinEqualIff | flytepropeller/events/admin_eventsink.go:120-129 | exact: lists joined by a separator are equal as strings iff they are equal once cut at every separator |
| Text.ValueOfNat | flytepropeller/events/admin_eventsink.go:120-129 | a printed number reads back as that number and has no leading zero |
| Text.IntToStringInjective | flytepropeller/events/admin_eventsink.go:120-129 | decimal printing of integers, negative ones included, is injective |
| EventSink.NewSink | flytepropeller/events/admin_eventsink.go:162-183 | a sink over a new filter meets the start condition of the theorems about runs |
| EventSink.DoKeepsInv | flytepropeller/events/admin_eventsink.go:49-107 | every call, delivery and filter access of every thread keeps: the filter and the Adds under way hold only identities of delivered messages |
| EventSink.SuppressionIsSound | flytepropeller/events/admin_eventsink.go:52-65 | in every run, the sink's own "already sent" answer means that a message with this identity was delivered earlier in the run |
| EventSink.SuppressedEventWasDelivered | flytepropeller/events/admin_eventsink.go:52-65 | and without colons in the names, that this very event was |
| EventSink.SuppressedIff | flytepropeller/events/admin_eventsink.go:52-107 | exact, in every run and for every message: it is answered "already sent" iff the last Add that succeeded in the slot of its identity was an Add of that identity |
| EventSink.SuppressionLasts | flytepropeller/events/admin_eventsink.go:58-107 | once the Add of an identity has succeeded, however often it was disturbed, in every continuation every message with that identity is answered "already sent" until an Add of another identity succeeds in the same slot |
| EventSink.UndisturbedDeliverySuppresses | flytepropeller/events/admin_eventsink.go:58-107 | a delivery whose Add is not disturbed takes two accesses to the filter, and then every message with that identity is answered "already sent" |
| EventSink.RepliesAre | flytepropeller/events/admin_eventsink.go:49-107 | exact, for every step: the reply is pending iff the call goes on; it is a parse error iff the message has no identity, throttled iff the limiter refuses, a send error iff the send fails, and Done iff the Add completes |
| EventSink.DoneMeansDelivered | flytepropeller/events/admin_eventsink.go:49-107 | in every run, a call that answers Done has submitted a message, passed the limiter and had this very message delivered, in this order and with no other step in between, and has just written its identity into the filter |
| EventSink.CallAlone | flytepropeller/events/admin_eventsink.go:49-107 | from every state, an undisturbed call with a message that the filter does not show delivers it and answers Done |
| EventSink.FailureLeavesNoTrace | flytepropeller/events/admin_eventsink.go:75-103 | a throttled call or a failed send changes neither the filter nor the deliveries, and its retry is answered like a first try |
| Download.DownloadKeepsShape | flytecopilot/data/download.go:368-521 | at every position the result has the node of the input, except that each blob and schema points to the path of its own position and an empty map is nil; no position is added or lost |
| Download.SucceedsIff | flytecopilot/data/download.go:368-521 | exact: a download succeeds iff every node of the tree can be downloaded to its own path |
| Download.PathIsPieces | flytecopilot/data/download.go:455-502 | for all variable names: joining name after name gives the output directory followed by all pieces between slashes, cleaned once |
| Download.PathIsRelative | flytecopilot/data/download.go:455-502 | for all variable names: a position whose relative path climbs n times and then descends lies n steps above the output directory and then down |
| Download.PathsClashIff | flytecopilot/data/download.go:455-502 | exact, for all variable names and any clean output directory: one path is that of another or above it iff following its relative path from the output directory leads there |
| Download.PathsBelowClashIff | flytecopilot/data/download.go:455-502 | exact, for all names that do not climb out: iff its relative path is a prefix of the other's, whatever the output directory |
| Download.AlwaysSamePathIff | flytecopilot/data/download.go:455-502 | exact, for all names: two positions have the same path in every output directory iff their relative paths are equal |
| Download.DirectoryIsCleaned | flytecopilot/data/download.go:488 | for all names: an output directory that is not clean gives the same paths as the cleaned one |
| Download.DotDotAtRootClashes | flytecopilot/data/download.go:488 | a name that climbs out at the root clashes with every ordinary variable, which its relative path alone does not show |
| Download.PiecesClashIff | flytecopilot/data/download.go:455-502 | exact, if no piece between slashes is empty, dot or dot-dot: positions clash iff the pieces of one are a prefix of the other's |
| Download.LeavesApartIff | flytecopilot/data/download.go:455-502 | exact, for all trees, all names and any clean output directory: a tree is free of clashes iff no leaf's relative path, followed from the output directory, leads to another leaf or above it |
| Download.LeavesBelowApartIff | flytecopilot/data/download.go:455-502 | exact, for all trees whose names do not climb out: iff no leaf's relative path is a prefix of another's, whatever the output directory |
| Download.SpecialNames | flytecopilot/data/download.go:488 | an empty name and a dot are the map's own directory, dot-dot is the directory above it |
| Download.ContainedPathIff | flytecopilot/data/download.go:455-502 | exact, for all names: a path stays in the output directory iff the climb and descent of its relative path lead back into it |
| Download.AlwaysContainedIff | flytecopilot/data/download.go:455-502 | exact: a position stays in the output directory, whatever that is, iff its relative path does not begin with dot-dot |
| Paths.CleanAppend | flytecopilot/data/download.go:488 | cleaning the front of a path first makes no difference, which is what makes repeated joining one cleaning |
| Paths.CleanRelative | flytecopilot/data/download.go:488 | nor does cleaning the rest first, as a relative path |
| Paths.RenderReadsBack | flytecopilot/data/download.go:455 | a written path, cut at its slashes and cleaned, gives the path back; it begins with a slash iff the path is rooted |
| Paths.RenderIsInjective | flytecopilot/data/download.go:455 | exact: clean paths are written the same iff they are equal |
| Download.LeafPathsNeverClash | flytecopilot/data/download.go:448-502 | with clean single-segment variable names, different leaves have different paths and none is a directory above another, through maps, collections and unions |
| Download.LocationsEqualIff | flytecopilot/data/download.go:455-502 | exact, for all names: the rendered locations are equal iff the paths are |
| Download.LeafLocationsDiffer | flytecopilot/data/download.go:448-502 | so the locations of different leaves differ as strings, too |
| Download.SlashInNameClashes | flytecopilot/data/download.go:488 | for every name, a variable called name/index takes the path of that item of the collection called name |
| Download.MetadataClashIff | flytecopilot/data/download.go:523-566 | exact, for all names and every position: the inputs file written into the output directory collides with a leaf iff following the leaf's relative path leads to the file, below it or above it; for names that do not climb out, iff the relative path is empty or begins with the name of the file |
| Download.MetadataClashesWithVariable | flytecopilot/data/download.go:523-566 | exact, if the variable names are single clean segments: iff the leaf lies under the variable of that name |
| Download.HandleLiteralStep | flytecopilot/data/download.go:408-445 | the imperative walk computes the specified literal |
| Download.HandleCollection | flytecopilot/data/download.go:448-464 | the loop over the items, stopping at the first error, computes the specified literal (its caller has made the directory) |
| Download.RecursiveDownload | flytecopilot/data/download.go:471-521 | starting and awaiting the variables in any order computes the specified literal (its caller has made the directory) |
| PodManager.RoundReachesGoal | flytepropeller/manager/manager.go:66-204 | after one round, said of the pods themselves: every managed name is taken; every pod with the application's label carries the current template version and shard configuration hash and has not failed; pods of the application that were in order, and all others, are untouched; each new pod has a managed name, that name's shard, the application's label, and otherwise the template's labels and annotations |
| PodManager.SecondRoundDoesNothing | flytepropeller/manager/manager.go:66-204 | a second round for the same goal deletes and creates nothing |
| PodManager.GetPodNames | flytepropeller/manager/manager.go:206-214 | as many names as pods are wanted, pairwise different |
| PodManager.NamesDiffer | flytepropeller/manager/manager.go:210 | names of different shards differ |
| PodManager.DeleteDoomed | flytepropeller/manager/manager.go:103-147 | the deletion loop removes nothing but labelled pods that failed or carry another template version or shard configuration hash, and all of them unless a deletion fails; it records exactly the managed names that are left |
| PodManager.CreatePods | flytepropeller/manager/manager.go:66-204 | whatever calls fail, only labelled pods out of order go and only pods made for their managed name come; a round that cannot read the template, the hash or the pods changes nothing; no error means the goal is reached and every managed name is held by a pod of the application in order; without failing calls the goal is reached and there is an error iff an unlabelled pod holds a managed name |
| WeightedRandom.ValidateEntries | flytestdlib/random/weighted_random_list.go:47-60 | exact acceptance, and the first offending entry with the right kind of error |
| WeightedRandom.SortSlice | flytestdlib/random/weighted_random_list.go:69-71 | the entries are rearranged in place, and no later item is less than an earlier one if the comparison is a strict total order on the items |
| WeightedRandom.OrderedIsUnique | flytestdlib/random/weighted_random_list.go:69-71 | given entries have only one ordered arrangement |
| WeightedRandom.Build | flytestdlib/random/weighted_random_list.go:72-101 | the running totals tile the range from 0 without gaps, entry by entry in order, entries of weight zero being skipped iff some weight is positive |
| WeightedRandom.NewWeightedRandom | flytestdlib/random/weighted_random_list.go:63-102 | succeeds iff the entries are valid, and builds the list from the sorted entries |
| WeightedRandom.InputOrderIsIrrelevant | flytestdlib/random/weighted_random_list.go:69-101 | two ordered arrangements of the same entries make the same list, totals included |
| WeightedRandom.BuildTwice | flytestdlib/random/weighted_random_list.go:63-102 | called on two arrangements of the same entries, the construction fails on both or builds the same list, so the same draw selects the same item |
| WeightedRandom.Scan | flytestdlib/random/weighted_random_list.go:105-111 | the loop finds the entry whose interval holds the draw; the fallback after it is never reached |
| WeightedRandom.Get | flytestdlib/random/weighted_random_list.go:104-112 | the item of the interval that holds the scaled draw |
| WeightedRandom.EveryDrawSelectsOne | flytestdlib/random/weighted_random_list.go:104-112 | the intervals partition the range: every draw selects exactly one entry |
| WeightedRandom.IntervalsAreWeights | flytestdlib/random/weighted_random_list.go:79-96 | an entry's interval is as long as its weight, or 1/n if all are zero; entries of weight zero are left out and all others present if some weight is positive |
| AsyncFuture.StepKeepsInv | flytestdlib/futures/future.go:61-93 | every step of the setter and of any number of clients keeps the lock, token and field invariant |
| AsyncFuture.SetNeverBlocksOnSend | flytestdlib/futures/future.go:61-68 | in every interleaving the setter finds room in the channel, and a lock held by a client is always released |
| AsyncFuture.GetReturnsTheOutcome | flytestdlib/futures/future.go:85-93 | every Get that is not cancelled returns exactly the value and error of the closure |
| AsyncFuture.AtMostOneGetReceives | flytestdlib/futures/future.go:85-93 | after one Get has received the token, every other stays blocked in every continuation unless cancelled, which it always can be |
| AsyncFuture.ReadyAnswersIff | flytestdlib/futures/future.go:77-81 | exact, in every run: Ready answers true iff set has finished |
| AsyncFuture.ReadyMeansSent | flytestdlib/futures/future.go:77-81 | exact: after Ready has answered true, in every continuation a waiting Get can go on iff no Get has taken the token |
| AsyncFuture.GetCanReturn | flytestdlib/futures/future.go:61-93 | from every state of every run in which the closure has ended and no Get has the token, each waiting Get can return its outcome without any new call |
| AsyncFuture.ReadyCanAnswerTrue | flytestdlib/futures/future.go:61-81 | from every state of every run in which the closure has ended, each waiting Ready can answer true |
| AsyncFuture.GetThenReady | flytestdlib/futures/future.go:61-93 | a run of a new future in which a client gets the outcome and is then told that the future is ready |
| Tuning.StepsFillTheRange | examples/ml_workflows/hyperparameter_tuning.py:122-124 | with a positive step the values start at the low end, stay within the range and stop only when the next would leave it; none iff the range is empty |
| Tuning.FivePoints | examples/ml_workflows/hyperparameter_tuning.py:117-121 | without a positive step there are five values, evenly spaced from one end of the range to the other |
| Tuning.GridIsComplete | examples/ml_workflows/hyperparameter_tuning.py:126-128 | the grid holds a combination iff each of its values is from its own list, and its size is the product of the sizes |
| Tuning.GridEmptyIff | examples/ml_workflows/hyperparameter_tuning.py:126-128 | exact: the grid is empty iff some parameter has no values |
| Tuning.BestIsEpsilonOptimal | examples/ml_workflows/hyperparameter_tuning.py:290-303 | for any results, with a non-negative minimal difference the tracked best is a recorded trial that succeeded with the metric, and no other such trial has a metric that is higher (when maximizing) or lower (when minimizing) by more than that difference; there is none iff no trial counts |
| Tuning.AlwaysTracksBestIff | examples/ml_workflows/hyperparameter_tuning.py:249-252 | exact: this holds for all results iff the minimal difference is not negative |
| Tuning.PatienceCounts | examples/ml_workflows/hyperparameter_tuning.py:290-303 | the patience counter is the number of valid trials since the best was found, none of which is better by more than the minimal difference, and zero as long as no trial counts |
| Tuning.SelectBest | examples/ml_workflows/hyperparameter_tuning.py:214-222 | the first of the trials with the highest (or, when minimizing, lowest) metric, or the failed trial if none counts |
| Tuning.SelectBatch | examples/ml_workflows/hyperparameter_tuning.py:260-283 | the size of a batch, also for a parallelism below one; each candidate is the suggestion after the exploration phase, if there is a suggester and it suggests something, and else the grid's |
| Tuning.Collect | examples/ml_workflows/hyperparameter_tuning.py:286-303 | one result for each candidate, in order, and the tracked best of all results so far |
| Tuning.TuneDynamic | examples/ml_workflows/hyperparameter_tuning.py:254-313 | fails iff the grid is empty; exact: the loop ends within as many turns as trials are wanted iff the parallelism is at least one, no trial is wanted or the patience is zero, and otherwise never; at most the allowed trials run, fewer only when the patience is used up; without a suggester they are a prefix of the shuffled grid; the answer is one of the recorded trials whose metric no other exceeds (when maximizing) or undercuts by more than the minimal difference, or the failed trial if none counts |
| Tuning.IdleTurn | examples/ml_workflows/hyperparameter_tuning.py:259-308 | with a parallelism below one, a turn leaves results, best and patience as they were and the loop wanting to go on |
| Tuning.Choose | examples/ml_workflows/hyperparameter_tuning.py:310-313 | the tracked best, or the failed trial when no trial was valid |

## Left out

Auto-refresh cache
- Worker shutdown and panic recovery, metrics, the rate limiter and the deduplication inside the work queue; each queued batch has an address of its own, and which one is handed out is free.
- The recency order of the LRU map: which entry is evicted is a free choice.
- Items travelling inside batches; the callback may answer anything for any id, with the payloads it was given or without. Answers whose action is not an update are not part of the list of answers.
- Values in the map that are not items (line 277), and the timers of Start and enqueueLoop: rounds and turns start at any time.
- AutoRefreshMarks.QueueAndMarksAgree: only for calm runs, in which nothing is deleted or evicted, no mark is found expired, and each round's batches take ids of the snapshot, none twice; within these runs AutoRefreshPromises.AgreementIff and QueuedApartIff are exact.

Blob store
- freecache's expiry and size accounting (an entry may vanish at any time), CreateSignedURL, List, the size and length arguments, spans and metrics.
- Failures of the underlying in-memory store in the classes; `CacheCoherence` has a failing step at any point of a call, which leaves the store as it is.
- Errors compared by identity (`IsCausedByError`, `Is`).

Bit arrays
- 64-bit overflow of index times item size, and float rounding in bitsNeeded, which is modelled as the exact number of bits; the largest 64-bit value is refused as too wide.
- The 64-bit operations on an item are arithmetic on powers of two; those on blocks are bit-vector operations.

Filter and event sink
- MD5 is any function to 16 bytes; sizing by logarithms in floating point is modelled exactly; callers that change the bytes of an id after adding it.
- The answers of the admin service beyond success and failure, the rate limiter's rule, the encoding of strings into bytes.

Downloader
- Reading and writing bytes, the values of the variable map, and cancelling the variables that are still running after an error: one failing variable fails the map.
- Offloaded literals are read once, as in the code, but the input is not overwritten in place; what an address resolves to is a finite tree.
- An empty output directory counts as the current one, so a variable name that begins with a slash is taken relative to it.

Pod manager
- Pod specs beyond the shard index, owner references, the count of running pods, graceful deletion (a deleted pod is gone at once), and that an empty annotation is overridden by a template's.
- Pods created during a round do not fail within it.

Weighted list, future, tuning
- Floating-point rounding: weights, totals and metrics are real numbers; the random generator is the drawn number. List and Len only read the entries.
- SyncFuture, and panics of the closure.
- Shuffling, random seeds, training, messages of failed trials, the merging of parameter names that are both discrete and continuous.
- The stable sort in select_best is a scan for the trial that it puts in front.
