# FrozenHot in Dafny

FrozenHot keeps a cache's hot part in a read-only hash ("frozen", FC) while the rest (DC) goes on as
an ordinary LRU or LFU; a write-ahead log library lies beside it. This project models the parts
whose correctness is hard to see by reading and proves what they keep.

How things are modelled:

- A protocol between threads is a state machine: a `State`, the atomic actions as `Step`s, `Enabled`,
  `Do`, and runs as sequences of states and steps. One action is one atomic operation, one map
  operation or one section under a mutex; any number of threads run. Fields listed as bookkeeping are
  read by no action, but for two of `GroupCommit` that stand for call stacks: `groups` says who has been
  elected, and `place` to which leader a call of SetState returns.
- An object that is updated in place is a class with `Valid()` and methods that state the whole new
  state. In `LruLinks` a node is an address, its fields are entries of maps in the object, and every
  pointer assignment of the source is one map update. In `LfuBuckets` a bucket is an address with its
  frequency and keys in maps; the list of buckets and the list of a bucket's keys are sequences.
- Hash maps (TBB, CLHT) are maps. Where an element's lifetime matters (`ConcurrentLru`) an accessor is
  a reader or writer lock on the element.
- Clock readings, random draws and measured latencies are parameters. Doubles are reals.

| file | models |
|---|---|
| FreezeScan, FreezeScanLimits | the scan of `construct_ratio` in the LRU, interleaved with inserts and evictions |
| LruLinks, LruFreeze | the same cache's lists pointer by pointer, and its calls one at a time |
| CurveMarker | the profiling mode with a marker node |
| LfuBuckets, Lfu, LfuFreeze | the LFU caches |
| ConcurrentLru, ConcurrentLruOwnership, ConcurrentLruCounting | the baseline LRU under concurrency |
| ConcurrentLruRuns, ConcurrentLruCrowding, ConcurrentLruSelfWait | where its guarantees end, for every capacity |
| EvictionPool, RedisLru | the Redis-style cache and its aliased pool |
| Lehmer, LehmerPowers, LehmerCycle | the random generator and its cycle |
| Controller, ShardSizes | the monitor that freezes and thaws shards, and its arithmetic |
| GroupCommit, GroupCommitInv, GroupCommitSafety, GroupCommitProgress | group commit: writer stack, leader election, wait and wake |
| Fixed, WalFormat, WalRoundTrip, WalCodec, WalBytes | the page format of the log, its writer and its parser |
| RecoveryRing, WalMetadata | the ring between recovery threads, and the log table on page 0 |
| Options, Sets | shared definitions |

Assumptions: a key is not 0 in the eviction pool, where 0 means an empty entry, and not 2 in curve
mode, where 2 is the marker's key (cache/hhvm_lru_cache_FH.h:34). In `FreezeScan` and `CurveMarker` an
inserted key is absent: clients insert only on a miss (traceloader/client.h:218-242). `FreezeScan` starts
on a full cache, and full means that m_size is m_maxSize and stays so: inserts may be under way before,
at or after their eviction, and are then not counted, but none that found room and none that is trimming,
because these change m_size. `is_full` also holds of an overfull cache (cache/hhvm_lru_cache_FH.h:194),
where an insert that is counted once evicts twice. Finds are no steps of `FreezeScan`: while the flag is
set they move nothing; one find that has passed its test at cache/hhvm_lru_cache_FH.h:597 before the flag
is set at line 321 can still move one node. How many inserts begin between two loads of the eviction
counter is a bound called `pace`; making a map entry and counting it is one action. There are no deletes
while frozen, in curve mode or during a scan.

What turned out not to hold as one would expect, with the exact condition proved:

- A record of length zero is written but read back as padding (`WalRoundTrip.RoundTrip`).
- The slack of 20 nodes keeps the scan on linked nodes if and only if twice the pace and the inserts
  that were not counted come to less than 39 (`FreezeScanLimits.StraysIff`).
- The frozen part exceeds its target by more than the slack in some run if and only if two inserts may be
  under way at once (`FreezeScanLimits.WithinSlackIff`).
- Freezing an empty list as a whole closes the cache for inserts for good, and only that does
  (`LruFreeze.TierThaw`, `LfuFreeze.TierThaw`).
- Inserting a present key while it is frozen leaves the fast hash stale if and only if the value is
  another one (`LruFreeze.FreezableLru.Insert`, `LruFreeze.StaleAnswer`).
- In curve mode an insert evicts the marker itself if and only if the cache is full and all nodes have
  passed it (`CurveMarker.CurveCache.InsertInCurve`, `CurveMarker.MarkerLost`).
- The generator is stuck at 2^31 - 1, and the index drawn from it is out of range, exactly for seeds
  whose low 31 bits are all ones (`Lehmer.DrawsInRangeIff`).
- The subtractions of FC_RELAXATION are safe for all shares the monitor asks for exactly from a shard
  capacity of 400 on (`ShardSizes.NoWrapIff`).
- `DeleteLog` keeps exactly the logs at or above the minimum if and only if no older log stands behind
  a newer one (`WalMetadata.DropKeepsExactly`, `WalMetadata.OlderLogKept`).
- An eviction of the baseline LRU always finds a node, in every run with at most T inserts in flight, if
  and only if T is at most the capacity, when nobody deletes, and if and only if T is 0, when somebody may
  (`ConcurrentLruCrowding.NeverEmptyIff`, `ConcurrentLruCrowding.NeverEmptyWithDeletesIff`). In the latter
  case the counter of an idle cache is right if and only if T is 0, too; at every capacity it wraps in a
  run with one insert in flight (`ConcurrentLruCrowding.CountsRightIff`,
  `ConcurrentLruCrowding.CounterWraps`). The counting law accounts for each eviction that finds nothing
  (`ConcurrentLruCounting.ListLength`).
- An insert of the baseline LRU can come to evict its own node, and then waits for itself for ever. At
  every capacity but 0 this happens in some run if and only if two inserts may be in flight, or one and
  deletes; at capacity 0 it takes deletes (`ConcurrentLruSelfWait.NeverSelfWaitsIff`,
  `ConcurrentLruSelfWait.NeverSelfWaitsWithDeletesIff`).
- From every state of the group commit all calls can return if and only if there is a log
  (`GroupCommitProgress.AlwaysConcludesIff`).

## Model

| member | source | states |
|---|---|---|
| `FreezeScan.StepInv` | cache/hhvm_lru_cache_FH.h:337-383 | every atomic action of the scan and of any insert keeps the invariant that ties list, map, counter, scanner and threads |
| `FreezeScan.ScannerNeverStrays` | cache/hhvm_lru_cache_FH.h:337-355 | in every run with 2 * pace + early < 2 * FC_RELAXATION - 1, where early counts the uncounted inserts in flight at its start before, at or after their eviction, the scanner stands on a linked node that the map knows |
| `FreezeScan.CutSplitsLiveList` | cache/hhvm_lru_cache_FH.h:357-381 | in such a run, whichever cut fires, the live list is, in order, the new main list with the frozen list in it |
| `FreezeScan.FinishedScanIsRight` | cache/hhvm_lru_cache_FH.h:337-394 | after such a run the frozen list is the head of the old list, its length is bounded on both sides, its nodes are live and in no other list, and the fast hash holds exactly their keys with the map's values |
| `FreezeScan.CutBehindCursorLength` | cache/hhvm_lru_cache_FH.h:357-368 | the first cut freezes exactly FC_size - FC_RELAXATION + 1 nodes |
| `FreezeScanLimits.StraysIff` | cache/hhvm_lru_cache_FH.h:318-383 | under a pace and a number of uncounted nodes no run leads the scan off the lists, if and only if 2 * pace + early < 2 * FC_RELAXATION - 1 |
| `FreezeScanLimits.StrayingRun` | cache/hhvm_lru_cache_FH.h:337-368 | for every pace and number beyond that, a run in which the node the scan stands on has been evicted |
| `FreezeScanLimits.FrozenLength` | cache/hhvm_lru_cache_FH.h:357-381 | with at most T inserts under way at once, FC_size - FC_RELAXATION < frozen length < FC_size + FC_RELAXATION + T |
| `FreezeScanLimits.WithinSlackIff` | cache/hhvm_lru_cache_FH.h:369-381 | over all sizes and all runs within the bound of `FreezeScanLimits.StraysIff` with at most T inserts under way, the frozen length is at most FC_size + FC_RELAXATION if and only if T <= 1 |
| `FreezeScanLimits.WideRun` | cache/hhvm_lru_cache_FH.h:695-705 | a run with two inserts counted and not yet evicting that freezes one node too many |
| `LruLinks.DelinkLists` | cache/hhvm_lru_cache_FH.h:786-795 | delink takes exactly that node out of the main list, marks it out of list and leaves the fast list alone |
| `LruLinks.PushFrontLists` | cache/hhvm_lru_cache_FH.h:798-804 | pushFront puts the node before the whole main list and leaves the fast list alone |
| `LruLinks.CutBehindLists` | cache/hhvm_lru_cache_FH.h:357-368 | the pointer writes of the first cut move the middle stretch of a list X F Y to the fast list and join X and Y, also when nodes were pushed since the scan began |
| `LruLinks.CutTailLists` | cache/hhvm_lru_cache_FH.h:369-381 | the pointer writes of the second cut move the rest of the list to the fast list |
| `LruLinks.TierLists` | cache/hhvm_lru_cache_FH.h:403-408 | the pointer writes of construct_tier move the whole list, the empty one included |
| `LruLinks.ThawLists` | cache/hhvm_lru_cache_FH.h:500-508 | the pointer writes of deconstruct put the fast list in front of the main list |
| `LruFreeze.CopyNodes` | cache/hhvm_lru_cache_FH.h:337-357 | the scan fills the fast hash with exactly the keys of the nodes it passes and their values; it fails exactly when the list is too short |
| `LruFreeze.FreezableLru.ConstructRatio` | cache/hhvm_lru_cache_FH.h:306-394 | which nodes are frozen, that the hash then agrees with the map, and for which sizes the scan would run off the list |
| `LruFreeze.FreezableLru.ConstructTier` | cache/hhvm_lru_cache_FH.h:397-453 | everything is frozen, the hash agrees with the map, inserts are off |
| `LruFreeze.FreezableLru.Deconstruct` | cache/hhvm_lru_cache_FH.h:491-519 | the main list is FC followed by DC and the flags are reset; with an empty FC nothing changes |
| `LruFreeze.FreezableLru.Find` | cache/hhvm_lru_cache_FH.h:522-610 | a frozen key is answered from the hash, any other from the map; exactly a DC key moves to the head, when the list mutex is free |
| `LruFreeze.FreezableLru.Insert` | cache/hhvm_lru_cache_FH.h:677-746 | the new list, key by key what the map may still hold, size equal to the map's and at most m_maxSize + 1; a present key makes the hash stale if and only if it is frozen with another value |
| `LruFreeze.FreezableLru.Evict` | cache/hhvm_lru_cache_FH.h:835-860 | the last DC node and its key go, never a frozen one; fails exactly on an empty DC |
| `LruFreeze.FreezeThaw` | cache/hhvm_lru_cache_FH.h:306-519 | for which sizes the freeze goes through, and that thawing then gives back the same node sequence, map and size |
| `LruFreeze.TierThaw` | cache/hhvm_lru_cache_FH.h:397-519 | the same for a full freeze, and that the cache is open again if and only if the list was not empty |
| `LruFreeze.FindAgrees` | cache/hhvm_lru_cache_FH.h:522-610 | while nothing is stale, frozen or not, the answer is the map's |
| `LruFreeze.StaleAnswer` | cache/hhvm_lru_cache_FH.h:691-694 | from a fresh cache, for any key and values: a frozen key inserted anew is answered with the old value while the map has the new one |
| `CurveMarker.CurveCache.BeginCurve` | cache/hhvm_lru_cache_FH.h:613-622 | the marker starts at the head with the counter at zero |
| `CurveMarker.CurveCache.Find` | cache/hhvm_lru_cache_FH.h:567-605 | a hit ahead of the marker is a fast hit and moves nothing, a hit behind it moves to the head and counts; afterwards the nodes ahead of the marker are exactly those of the keys found since it was put in |
| `CurveMarker.CurveCache.InsertInCurve` | cache/hhvm_lru_cache_FH.h:695-745 | the marker is lost if and only if the cache is full and every cached node has passed it; otherwise the new node stands right behind the marker, evictions come from the end, and counter, nodes found so far and fast hits are unchanged |
| `CurveMarker.CurveCache.EndCurve` | cache/hhvm_lru_cache_FH.h:659-665 | exactly the marker leaves the list; counter and invariant are as before the curve |
| `CurveMarker.MarkerLastIff` | cache/hhvm_lru_cache_FH.h:835-846 | the marker is the node to be evicted exactly when the counter equals the number of cached keys |
| `CurveMarker.MarkerLost` | cache/hhvm_lru_cache_FH.h:698-722 | for every capacity: a fresh cache filled, every key found in curve mode and one more inserted; it is still in curve mode, the marker is in no list, and neither is the new key, which the map has |
| `LfuBuckets.RaiseMovedUp` | cache/lfu.h:188-192 | raising a bucket in place changes the level of its only key and nothing else |
| `LfuBuckets.SplitMovedUp` | cache/lfu.h:193-199 | so does giving the key a new bucket |
| `LfuBuckets.ShiftMovedUp` | cache/lfu.h:204-211 | so does moving it to the bucket before, which may delete the old one |
| `LfuBuckets.PromoteGood` | cache/lfu.h:185-212 | all ways of find keep frequencies strictly falling, buckets non-empty but a last one of frequency 1, and back pointers right |
| `LfuBuckets.EnterGood` | cache/lfu.h:231-241 | so does the insertion of a new key, whose bucket is then the last one |
| `LfuBuckets.DropGood` | cache/lfu.h:256-261 | so does the eviction of the last bucket's oldest key |
| `LfuBuckets.EnterIs` | cache/lfu.h:231-241 | a new key comes first on level 1 and no other level changes |
| `LfuBuckets.DropIs` | cache/lfu.h:256-261 | the last key of level 1 goes and no other level changes |
| `LfuBuckets.LevelHolds` | cache/lfu.h:55-62 | a key is on a level if and only if its back pointer leads to the bucket of that frequency |
| `Lfu.LfuCache.Find` | cache/lfu.h:166-217 | the value, one more hit for the key, and the change of levels; frequency stays one plus hits |
| `Lfu.LfuCache.Insert` | cache/lfu.h:219-275 | size equals the map's and is at most n, and the victim is the oldest key never hit, possibly the new one |
| `Lfu.MovedUpOk` | cache/lfu.h:166-217 | a move up one level keeps frequency equal to one plus hits and the arrival order of unhit keys |
| `LfuFreeze.FreezableLfu.Find` | cache/lfu_FH.h:333-424 | in every state the answer is the map's; frozen keys are not moved, others go up one level |
| `LfuFreeze.FreezableLfu.Insert` | cache/lfu_FH.h:506-575 | when a key is added, that it comes first on level 1, and that the victim is the last of that level and never a frozen key |
| `LfuFreeze.ScanRatio` | cache/lfu_FH.h:169-191 | the least prefix of buckets with FC_size keys, the hash filled with exactly these, and when the assertion on the tail fails |
| `LfuFreeze.FreezableLfu.ConstructRatio` | cache/lfu_FH.h:153-206 | exactly that prefix is frozen and the rest remains a good bucket list |
| `LfuFreeze.FreezableLfu.ConstructTier` | cache/lfu_FH.h:208-254 | everything is frozen and inserts are off |
| `LfuFreeze.Renumber` | cache/lfu_FH.h:276-282 | the FC buckets get consecutive frequencies above the DC's largest |
| `LfuFreeze.FreezableLfu.Deconstruct` | cache/lfu_FH.h:256-308 | one strictly falling list again, FC buckets in their order ahead of the DC; with an empty FC nothing changes |
| `LfuFreeze.ThawGood` | cache/lfu_FH.h:285-293 | the joined list keeps frequencies, fill and back pointers right |
| `LfuFreeze.TierThaw` | cache/lfu_FH.h:208-308 | a full freeze and a thaw give back bucket list, keys, map and size, and leave the cache open if and only if there was a bucket |
| `LfuFreeze.EmptyTierStaysClosed` | cache/lfu_FH.h:256-263 | from a fresh cache of any capacity: frozen and thawed without buckets, it is empty, has no frozen part, and all flags stay set, so that it refuses an insert of any key |
| `ConcurrentLruOwnership.StepInv` | cache/hhvm_lru_cache.h:251-424 | every step of insert, find, evict and delete_key keeps node ownership, locks, list and map consistent |
| `ConcurrentLruOwnership.RemovedOnce` | cache/hhvm_lru_cache.h:377-424 | a node removed by evict or delete_key is removed by no later step |
| `ConcurrentLruOwnership.OneListedPerKey` | cache/hhvm_lru_cache.h:282-305 | at most one listed node per key, and it is the one the map has |
| `ConcurrentLruOwnership.EvictFindsItsElement` | cache/hhvm_lru_cache.h:389-396 | the branch marked presumably unreachable is never taken |
| `ConcurrentLruOwnership.NoUseAfterFree` | cache/hhvm_lru_cache.h:251-424 | no step reads, writes or frees a freed node |
| `ConcurrentLruCounting.ListLength` | cache/hhvm_lru_cache.h:282-424 | list length is the counter corrected by the threads in between and by evictions on an empty list, in every run, deletes and wrap-around included |
| `ConcurrentLruCounting.SizeNeverRunsAway` | cache/hhvm_lru_cache.h:292-329 | without deletes and with at most T <= m_maxSize inserts in flight, m_size <= m_maxSize - 1 + T and the law without the delete terms |
| `ConcurrentLruCounting.EvictNeverFindsEmptyList` | cache/hhvm_lru_cache.h:377-387 | in such a run no eviction finds the list empty |
| `ConcurrentLruCounting.FullStaysFull` | cache/hhvm_lru_cache.h:310-329 | in such a run the counter never falls below m_maxSize again |
| `ConcurrentLruCrowding.NeverEmptyIff` | cache/hhvm_lru_cache.h:294-387 | for every capacity and T, no delete-free run with at most T inserts in flight evicts from an empty list, if and only if T is at most the capacity, where their sum fits 64 bits |
| `ConcurrentLruCrowding.CrowdedRun` | cache/hhvm_lru_cache.h:294-302 | for every capacity, a delete-free run with one insert more in flight whose last eviction finds the list empty |
| `ConcurrentLruCrowding.NeverEmptyWithDeletesIff` | cache/hhvm_lru_cache.h:282-424 | for every capacity and T, no run with deletes and at most T inserts in flight evicts from an empty list, if and only if T is 0 |
| `ConcurrentLruCrowding.DeletedRun` | cache/hhvm_lru_cache.h:377-424 | for every capacity, a run with one insert in flight in which deletes make its eviction find the list empty |
| `ConcurrentLruCrowding.CounterFallsBehind` | cache/hhvm_lru_cache.h:300-312 | for every capacity, a run of two threads, of which only one inserts, that ends with nobody at work, one node in the list and a counter of 0 |
| `ConcurrentLruCrowding.CounterWraps` | cache/hhvm_lru_cache.h:406-424 | for every capacity, a run of those threads that ends with nobody at work, an empty list and a counter of 2^64 - 1 |
| `ConcurrentLruCrowding.CountsRightIff` | cache/hhvm_lru_cache.h:282-424 | for every capacity, whenever nobody is at work the counter is the list's length, in all runs with at most T inserts in flight, if and only if T is 0 |
| `ConcurrentLruSelfWait.EraseEnabledIff` | cache/hhvm_lru_cache.h:389-396 | in every run an eviction can go on if and only if its node is not its own and no other thread has an accessor to it |
| `ConcurrentLruSelfWait.StuckForever` | cache/hhvm_lru_cache.h:313-328 | a thread that evicts its own node takes no step ever after |
| `ConcurrentLruSelfWait.NeverSelfWaitsIff` | cache/hhvm_lru_cache.h:282-329 | for every capacity and T, no delete-free run with at most T inserts in flight makes a thread evict its own node, if and only if T is at most 1 or the capacity is 0 |
| `ConcurrentLruSelfWait.TwoInsertsRun` | cache/hhvm_lru_cache.h:304-328 | for every capacity from 1 on, a delete-free run with two inserts in flight and finds of all other keys that gets there |
| `ConcurrentLruSelfWait.NeverSelfWaitsWithDeletesIff` | cache/hhvm_lru_cache.h:282-424 | with deletes, if and only if T is 0 |
| `ConcurrentLruSelfWait.LoneInsertRun` | cache/hhvm_lru_cache.h:294-328 | for every capacity, a run with deletes in which one insert alone, on an empty cache with a wrapped counter, gets there |
| `EvictionPool.PlacedIsGood` | cache/redis_lru.h:161-202 | whatever the sample, the pool read through its pointers stays a prefix of keys sorted by idle time with shared entries side by side |
| `EvictionPool.PlacedHolds` | cache/redis_lru.h:201-202 | a sample taken is in the pool afterwards, and nothing else is new |
| `EvictionPool.RejectedIff` | cache/redis_lru.h:165-169 | a sample is turned away if and only if the pool is full of keys idle at least as long |
| `EvictionPool.MovedSlotsShare` | cache/redis_lru.h:174-187 | after a memmove two neighbouring slots share the new entry |
| `EvictionPool.Pool.Place` | cache/redis_lru.h:161-202 | the loop and the memmoves on the array of pointers compute that pool |
| `EvictionPool.Pool.Victim` | cache/redis_lru.h:250-274 | the scan clears vanished keys and picks a cached key with the largest recorded idle time, or none if the pool has none |
| `EvictionPool.ScanVictim` | cache/redis_lru.h:250-274 | that choice for every good pool and every set of cached keys |
| `RedisLru.RandomizedSet.Insert` | cache/redis_lru.h:34-41 | adds the key, positions invert the vector |
| `RedisLru.RandomizedSet.Remove` | cache/redis_lru.h:43-53 | removes exactly the key; positions still invert the vector |
| `RedisLru.RedisCache.Sample` | cache/redis_lru.h:127-149 | at most five different cached keys, all that were drawn if fewer |
| `RedisLru.RedisCache.Populate` | cache/redis_lru.h:126-208 | what is new in the pool is a positive reading of a cached key |
| `RedisLru.RedisCache.PerformEvictions` | cache/redis_lru.h:245-277 | the victim leaves map and set alike and was the most idle cached key of the pool |
| `RedisLru.RedisCache.Insert` | cache/redis_lru.h:321-338 | set and map keep the same keys; what the map holds; size equals the map's and stays within the capacity unless the given rounds end without a victim |
| `Lehmer.Random.Next` | ssdlogging/util.h:168-186 | the folded computation is multiplication by 16807 modulo 2^31 - 1 on live seeds |
| `Lehmer.FoldedIsRemainder` | ssdlogging/util.h:168-186 | the same as a fact about the computation, and that the result is live |
| `Lehmer.StepIsBijection` | ssdlogging/util.h:172-174 | the step permutes the live seeds, with an explicit inverse |
| `Lehmer.LiveForever` | ssdlogging/util.h:172-174 | no run from a live seed ever leaves the live seeds, and 2^31 - 1 is a fixed point |
| `LehmerCycle.OrderIsFull` | ssdlogging/util.h:172-174 | no power of 16807 before the (M - 1)-th is 1 modulo M |
| `LehmerCycle.CyclesThroughAll` | ssdlogging/util.h:172-174 | from every live seed the generator comes to every live seed in less than M - 1 calls |
| `LehmerCycle.NoneTwice` | ssdlogging/util.h:172-174 | and to none twice in M - 1 calls |
| `Lehmer.DrawsInRangeIff` | cache/redis_lru.h:55-62 | all indices drawn are in range if and only if the seed's low 31 bits are not all ones |
| `Controller.StepInv` | cache/hhvm-scalable-cache.h:587-1063 | every step of the monitor, under arbitrary measurements and stops, keeps queue, fail list and frozen shards consistent |
| `Controller.FreezesThawed` | cache/hhvm-scalable-cache.h:683-881 | a shard is frozen only while thawed, and is frozen afterwards |
| `Controller.RatioInRange` | cache/hhvm-scalable-cache.h:869-874 | construct_ratio gets a share between 0.05 and 0.9; the only other value, 1, means construct_tier |
| `Controller.ProfilesThawed` | cache/hhvm-scalable-cache.h:662-664 | get_curve runs only when all shards are thawed |
| `Controller.QueueEmptyOnEntry` | cache/hhvm-scalable-cache.h:794-801 | the assertion at the start of construction always holds, and all shards are thawed there |
| `Controller.ThawedAreQueuedOrFailed` | cache/hhvm-scalable-cache.h:834-912 | between passes the thawed shards are exactly those queued or given up |
| `Controller.PassesBounded` | cache/hhvm-scalable-cache.h:847-866 | no pass begins after PASS_THRESHOLD, and a construction that is not stopped ends with an empty queue |
| `Controller.EndsThawed` | cache/hhvm-scalable-cache.h:1029-1060 | the monitor ends with every shard thawed |
| `ShardSizes.SplitShards` | cache/hhvm-scalable-cache.h:245-250 | the shard capacities add up to the whole, each rounded down or up, larger ones first |
| `ShardSizes.NoWrapIff` | cache/hhvm_lru_cache_FH.h:323-369 | both unsigned subtractions are safe for every share in range if and only if the capacity is at least 400 |
| `ShardSizes.ShardsNeverWrap` | cache/hhvm-scalable-cache.h:869-874 | so in every run of the monitor over such shards they never wrap |
| `ShardSizes.DrawCurve` | cache/hhvm_lru_cache_FH.h:629-655 | from any stream of looks at most 45 points, each from the look that ends its wait, with a share of at most 0.9, not saturated, and above two percent for each earlier point unless saturation or a stop ended the wait |
| `ShardSizes.BestSize` | cache/hhvm-scalable-cache.h:713-757 | the option picked has the least expected latency of all, and is none, a measured share or everything |
| `GroupCommitInv.StepInv` | ssdlogging/ssdlogging_server.cc:7-244 | every atomic action of any writer, leader, setter or the server keeps the invariant |
| `GroupCommitSafety.ReturnIsDurable` | ssdlogging/ssdlogging_server.cc:7-27 | a returned call was in exactly one group, its data were appended exactly once to that group's log, and a Sync of that log came after the append and before the return |
| `GroupCommitSafety.LogsAreExclusive` | ssdlogging/ssdlogging_server.cc:41-81 | two groups never hold the same log at the same time, and a held log is marked |
| `GroupCommitSafety.RunKeepsGroups` | ssdlogging/ssdlogging_server.cc:95-114 | a writer once in a group stays in it, at the same place |
| `GroupCommitSafety.RunWord` | ssdlogging/ssdlogging_server.cc:207-244 | along every run a state word goes INIT, perhaps LOCKED_WAITING, then LEADER or COMPLETED for good |
| `GroupCommitSafety.AssertionsHold` | ssdlogging/ssdlogging_server.cc:83-244 | every state assertion of AddLog, AddToLink, MakeGroup, FinishGroup, AwaitState and SetState holds in every run |
| `GroupCommitSafety.NoLostWakeUp` | ssdlogging/ssdlogging_server.cc:207-244 | a writer that has been told sleeps only while its notification is to come; the setter can go on, and then the writer can |
| `GroupCommitSafety.NeverTouchesReturned` | ssdlogging/ssdlogging_server.cc:129-144 | no step reads or writes the record of a call that has returned |
| `GroupCommitSafety.LeaderNeverStuck` | ssdlogging/ssdlogging_server.cc:95-144 | an elected leader always has a next step until it waits in SetState or has returned |
| `GroupCommitProgress.EveryCallCanReturn` | ssdlogging/ssdlogging_server.cc:7-244 | with at least one log, every run can be continued, without further calls, to a state in which every call has returned |
| `GroupCommitProgress.AlwaysConcludesIff` | ssdlogging/ssdlogging_server.cc:41-81 | every run of a server can be so continued if and only if it has a log |
| `Fixed.Decode32OfEncode32` | ssdlogging/util.h:90-113 | decoding undoes encoding of 32-bit words |
| `Fixed.Encode32OfDecode32` | ssdlogging/util.h:90-113 | and encoding undoes decoding |
| `Fixed.Decode64OfEncode64` | ssdlogging/util.h:115-141 | decoding undoes encoding of 64-bit words |
| `WalRoundTrip.RoundTrip` | ssdlogging/spdk_logging_recovery.cc:191-263 | parsing the pages of any batches under one tag yields exactly the records, in order and with no assertion failing, if and only if no record is empty |
| `WalCodec.RecordFits` | ssdlogging/spdk_logging_server.cc:56-57 | a record that passes the test fits the buffer with all headers and padding |
| `WalCodec.BatchFits` | ssdlogging/spdk_logging_server.cc:50-107 | so does a batch all of whose records pass |
| `WalCodec.MemCopy` | ssdlogging/spdk_logging_server.cc:41-108 | the writer's loops produce exactly the pages of the format, page-aligned and within the buffer, or stop where the test fails |
| `WalCodec.ProcessData` | ssdlogging/spdk_logging_recovery.cc:191-263 | the parser's loops compute exactly the specified parse |
| `WalCodec.ReadRecord` | ssdlogging/spdk_logging_recovery.cc:220-260 | a record is collected across pages, or the pages run out |
| `WalBytes.WriteLog` | ssdlogging/spdk_logging_server.cc:41-108 | the device after any batches have been through the buffer: the bytes of the log's pages, or nothing where a test fails |
| `WalBytes.WriteAndRecover` | ssdlogging/spdk_logging_recovery.cc:191-263 | batches written to bytes, cut into pages and parsed: what comes back is what was written if and only if no record is empty |
| `RecoveryRing.RingSafety` | ssdlogging/spdk_logging_recovery.h:34-63 | in every interleaving each read returns the page written for its ticket, publication and consumption are in order, lastRead <= lastWrote < writableSeq |
| `RecoveryRing.NoSlotLost` | ssdlogging/spdk_logging_recovery.h:42-44 | a slot is overwritten only after the page it held has been read |
| `RecoveryRing.FetchNeverBlocks` | ssdlogging/spdk_logging_recovery.h:50-57 | a reader let through finds a page in its slot |
| `RecoveryRing.SlotIsMasked` | ssdlogging/spdk_logging_recovery.h:43-57 | the slot of the model is the sequence number masked bit by bit with size - 1, for every size that is a power of two |
| `WalMetadata.LogServer.AddSize` | ssdlogging/spdk_logging_server.cc:36-39 | the total stays the sum of the live logs' sizes |
| `WalMetadata.LogServer.Reserve` | ssdlogging/spdk_logging_server.cc:116-131 | the next write position, and where it goes round |
| `WalMetadata.LogServer.CreateWAL` | ssdlogging/spdk_logging_server.cc:360-370 | the newest log ends right before the new one starts, the total is unchanged, page 0 is written; when the assertion or the page fails |
| `WalMetadata.LogServer.DeleteLog` | ssdlogging/spdk_logging_server.cc:340-352 | what is kept, that total and contiguity hold for it, and when an assertion fails |
| `WalMetadata.DropKeepsExactly` | ssdlogging/spdk_logging_server.cc:340-349 | exactly the logs at or above the minimum stay if and only if none below it stands behind one above |
| `WalMetadata.OlderLogKept` | ssdlogging/spdk_logging_server.cc:340-349 | from a fresh server, for any falling log numbers and a minimum between them: DeleteLog succeeds, page 0 is written, and the log below the minimum is kept |
| `WalMetadata.DropOfIncreasing` | ssdlogging/spdk_logging_server.cc:340-349 | so for increasing sequence numbers |
| `WalMetadata.LogServer.WriteMetadata` | ssdlogging/spdk_logging_server.cc:372-386 | page 0 holds the table of live logs, or the table does not fit |
| `WalMetadata.ReadMetadata` | ssdlogging/spdk_logging_recovery.cc:312-330 | what is read, and that the check passes if and only if neighbours follow each other |
| `WalMetadata.MetadataRoundTrip` | ssdlogging/spdk_logging_recovery.cc:312-330 | what was written is read back and the contiguity check passes |

## Left out

- SPDK and NVMe calls, device setup, thread affinity, sleeping, printing and latency statistics: input and output.
- RecoveryServer, ReadFromSPDK and GetLogEntry: device plumbing around the ring and the parser; the ring is proved safe, not live.
- WalRoundTrip.RoundTrip: is stated for one log, all of whose pages carry the same tag, and for pages of at least 8 bytes; the parser takes a record's tag from the last page it looked at from its top, so across logs a tag can be that of an earlier page.
- WalCodec.MemCopy: where the source's assertion fails it returns None and does not say what the buffer holds.
- WalMetadata.LogServer.WriteMetadata: where the table is longer than page 0 it reports an overrun and writes nothing, while the source writes past the page.
- FreezeScan.FinishedScanIsRight: its upper bound on the frozen length has the inserts counted but not yet evicting added to FC_size + FC_RELAXATION, because the bound without them fails; the exact condition is in `FreezeScanLimits.WithinSlackIff`. Its starts are those of `FreezeScan.ScannerNeverStrays`.
- FreezeScan.ScannerNeverStrays: does not cover a start on an overfull cache, where an insert that is counted once evicts twice, nor one with inserts under way that found room or are trimming, nor the one find that may have passed its test before the flag is set; the same starts are not covered by `FreezeScan.CutSplitsLiveList` and `FreezeScan.FinishedScanIsRight`.
- FreezeScan.CutSplitsLiveList: as for `FreezeScan.ScannerNeverStrays`.
- LruFreeze.FreezableLru.ConstructRatio: a scan that would run off the list is reported as false; what the source does there is undefined.
- CurveMarker.CurveCache.InsertInCurve: stops when the marker is evicted, where the source would use a node that is no longer linked.
- RedisLru.RedisCache.PerformEvictions: is given the rounds it may take; the source goes on until it has a victim, and whether it ever has one depends on the draws and the clock.
- Controller.EndsThawed: counts a shard as thawed once deconstruct has been called; that a full freeze of an empty shard is not undone is shown in `LruFreeze.TierThaw` and `LfuFreeze.EmptyTierStaysClosed`.
- ShardSizes.DrawCurve: models the profiling of the LRU only.
- Interleavings inside the LFU caches, the Redis-style cache, the curve mode and the lists of `LruFreeze`: each call is one step.
- Progress of the baseline LRU beyond `ConcurrentLruSelfWait`: threads wait for locks in the model, and no claim is made that they get them; cached values are not part of that model.
- Fairness in the group commit: `GroupCommitProgress.EveryCallCanReturn` gives a schedule, not that every schedule gets there.
- Curve mode of the LFU, deletes and tombstones of the freezable caches, `performEviction` and `CreateMissingNewerLinks`, which nothing calls.
- The submission and completion queues of the SPDK logging server; the writer stack of `GroupCommit` is of the same kind.
- Rounding of floating point, also in the index that getRandom computes.
- cache/FIFO.h, cache/strict_lru.h and cache/FIFO_FH.h: near copies of what is modelled.
- Trace loading, workload generation, evaluation scripts and the insides of the hash tables.
