# A verified model of CacheLib's in-memory cache core

This project models the parts of CacheLib whose correctness is global: the life of items under
concurrency, the two eviction containers, the intrusive hash table, and the smaller pieces that rest
on them. Each property is proved for all inputs, all interleavings or all runs. `dafny verify
dfyconfig.toml` verifies everything.

Conventions. Protocols are transition systems: an `Action` type, a predicate `Enabled`, a step
function, and runs as sequences of actions; a step is one container operation under its lock, or one
atomic update of an item's mark or reference count. Objects that change in place are classes; their
methods are proved against functions on values, about which the properties are proved. What an
operation does to the outside is also stated apart from the functions that compute it, in the files whose
names end in `Effects` and in the contracts themselves. Clocks, callback
outcomes and the success of making a handle are parameters. Unsigned wrap-around is written out where
it matters. NvmCache is absent throughout, and pointer compression is the identity.

| file | what it models |
|---|---|
| `LinkProtocol.dfy`, `LinkProofs.dfy`, `LinkTheorems.dfy`, `LinkEffects.dfy` | insert, insertOrReplace, remove, replaceIfAccessible, eviction and moving, as threads interleave them over the hash table and the eviction queues |
| `WakeUp.dfy`, `LostWakeUp.dfy` | readers waiting for items being moved, and the slab-release threads that wake them |
| `MM2Q.dfy`, `MM2QRuns.dfy`, `MM2QTransparency.dfy`, `MM2QRecency.dfy`, `MM2QEffects.dfy` | the 2Q container with and without tail tracking, and its runs |
| `MMLru.dfy` | the LRU container with a movable insertion point |
| `Chains.dfy`, `Slots.dfy`, `SlotEffects.dfy`, `ItemStore.dfy` | chains of child items, slot conservation, release and eviction |
| `ChainSteps.dfy` | chain operations step by step, while others allocate, insert, mark and evict |
| `EvictionRace.dfy`, `ParentReused.dfy` | what others can do between reading a child's parent and marking it |
| `HashTable.dfy` | the chained hash table over heap nodes with next hooks |
| `TableIterator.dfy`, `Scan.dfy` | the bucket-copying iterator, flush, and key scans |
| `HandleAccounting.dfy` | per-thread handle counts |
| `Counters.dfy`, `Glob.dfy`, `PoolStats.dfy`, `Layout.dfy` | rate-limit windows, glob translation, pool statistics, item layout |
| `Basics.dfy` | what several files share |

## Where the code does less than one would expect

- When all threads are done, an item can be left in an eviction queue that no key reaches. It takes an
  `insertOrReplace` over a parent that is marked moving for the move of one of its children. The mover
  unmarks the parent, looks the key up again, finds the new item and wakes the replacing thread with it.
  That thread then takes the new item out of its eviction queue instead of the replaced parent.
  `LinkTheorems.OrphanExists` is such a run. `LinkTheorems.NoOrphan` says that the overtaken parents
  still queued are exactly the unreachable ones, and `NoOrphanWithoutOvertaking` that nothing else causes this.
- A reader can wait forever. A release thread that has moved a child unmarks the parent, looks it up again and
  wakes the parent's key, which it reads from the parent's slot each time; the move map keeps its keys in such
  slots, too. When the parent is evicted and its slot used under another key in between, the thread wakes that
  key instead (`LostWakeUp.LostWakeUp`). No wake-up is lost if and only if no slot is used again under another
  key while contexts are parked under its old one and either their entry keeps its key in that slot, or the only
  threads that would wake the old key read it there (`WakeUp.WakeUpsLostExactly`, for one step `WakeUp.WakeUpsExact`).
- `MM2Q::Container::replace` adds bits to the new node and clears none. The container stays valid if and
  only if the new node brings no bit along that the old node's queue does not have (`MM2Q.ReplacedValid`).
  `MM2QRuns.StaleBit` is a run whose last replacement breaks it.
- When cloning a handle overflows while waiters are woken, the waiter at hand is never set. When nobody else
  changes the reference count, all waiters are set if and only if it leaves room for a clone for each
  (`WakeUp.AllNotified`); `WakeUp.FullCount` is the case of a full count.
- The regular expression made from a glob does not let wildcards match line terminators. The keys on which
  it agrees with the glob for every pattern are exactly those without one (`Glob.AgreesWithoutLines`);
  `Glob.LineTerminatorCounterexample` is a key on which it does not.
- The documentation of the 2Q container says that tail queues have the configured size. From tail queues
  that are as full as they can be, an operation leads to such queues if and only if it is none of these
  (`MM2QRuns.FullTailsKept`): an eviction of a node in a tail queue whose main queue is not empty; a due
  access to a node in the warm tail; a due access to a cold node, without rebalancing on access, while the
  warm tail is short or, for a node in the cold tail, the cold queue is not empty; a configuration with a
  smaller tail size than a tail queue has nodes, or with a larger one while the warm or the cold queue is not
  empty. `MM2QRuns.ShortTail` is a run that ends with a short tail.
- An eviction can release an item and yet return no slot, because the child it was after went to another
  parent in between; it then goes on searching. The item was then out of a container at some time since it was
  read, and is linked again (`EvictionRace.EvictsFamily`): its slot was used for a new item
  (`ParentReused.SlotReused`), or whoever held it inserted it again (`ParentReused.InsertedAgain`).

## Model

| member | source | states |
|---|---|---|
| `LinkTheorems.NoOrphan` | cachelib/allocator/CacheAllocator.h:3553-3660 | for every interleaving of any number of threads, once all are done a queued item is reachable by its key if and only if it was not overtaken while marked for a child's move |
| `LinkTheorems.NoOrphanWithoutOvertaking` | cachelib/allocator/CacheAllocator.h:3717-3774 | without such a replacement every interleaving ends with every queued item reachable by key |
| `LinkTheorems.OvertakenGrows` | cachelib/allocator/CacheAllocator.h:3603-3660 | one step overtakes an item exactly when insertOrReplace unbinds a parent marked for a child's move, and then it overtakes that parent only |
| `LinkTheorems.NothingOvertaken` | cachelib/allocator/CacheAllocator.h:3603-3660 | a run without such a step overtakes nothing |
| `LinkTheorems.OrphanExists` | cachelib/allocator/CacheAllocator.h:5205-5229 | a run of two threads that ends with an unreachable item queued and a reachable one not |
| `LinkTheorems.FreedOnce` | cachelib/allocator/CacheAllocator.h:3483-3500 | in every reachable state a freed item is neither held nor linked, and an item being freed is drained, not freed yet, and freed by one thread only |
| `LinkTheorems.SlotsConserved` | cachelib/allocator/Refcount.h:277-397 | once all threads are done an item is freed if and only if it is drained, and no mark is left |
| `LinkTheorems.Reachable` | cachelib/allocator/CacheAllocator.h:3151-3179 | the invariant of the protocol holds after every run |
| `LinkProofs.StepKeeps` | cachelib/allocator/CacheAllocator.h:4177-4226 | every step of every thread keeps the invariant |
| `LinkProofs.RunKeeps` | cachelib/allocator/CacheAllocator.h:3553-3660 | so does every run |
| `LinkProofs.AdvanceKeeps` | cachelib/allocator/CacheAllocator.h:3829-3839 | every later step of an operation keeps the invariant |
| `LinkProofs.StartKeeps` | cachelib/allocator/CacheAllocator.h:3571-3601 | so does the first step of an insertion, removal, replacement or move |
| `LinkProofs.EvictKeeps` | cachelib/allocator/CacheAllocator.h:3841-3957 | so does marking a candidate and taking it off its queue |
| `LinkProofs.ReplaceAdvances` | cachelib/allocator/ChainedHashTable.h:1024-1063 | insertOrReplace in the table keeps the invariant, for an unmarked, moving or evicted old item and on overflow; what it binds is `LinkEffects.ReplaceBinds` |
| `LinkProofs.SwapAdvances` | cachelib/allocator/CacheAllocator.h:3151-3179 | so does replacing an item in the eviction queues |
| `LinkProofs.UnheldCovered` | cachelib/allocator/CacheAllocator.h:5345-5382 | an item that can be marked is reachable or was overtaken |
| `LinkTheorems.NeverStuck` | cachelib/allocator/CacheAllocator.h:3553-3660 | in every reachable state a thread inside an operation has an open outcome for its next step |
| `LinkTheorems.OperationsEnd` | cachelib/allocator/CacheAllocator.h:3717-3774 | whatever the other threads do, an operation is over after a fixed number of steps of its own thread, at most eight once it has started |
| `LinkEffects.InsertionStarts` | cachelib/allocator/CacheAllocator.h:3543-3551 | both insertions queue the item and change nothing else |
| `LinkEffects.ReplaceBinds` | cachelib/allocator/CacheAllocator.h:3603-3660 | unless it throws, insertOrReplace leaves the key naming the new item and every other key as it was; an unmarked old item is then held by the thread, whose next step takes it off the queue, one being evicted is left alone, a moving one is waited for |
| `LinkEffects.ReplaceThrows` | cachelib/allocator/ChainedHashTable.h:1024-1063 | when it throws nothing changes, and the next step takes the new item off the queue |
| `LinkEffects.ReplaceWoken` | cachelib/allocator/CacheAllocator.h:3640-3660 | the item the thread is woken with is held and the next step takes it off the queue |
| `LinkEffects.ReplaceTakesEffect` | cachelib/allocator/CacheAllocator.h:3603-3660 | in every interleaving insertOrReplace has bound its item by the time it is past the table, unless it threw |
| `LinkEffects.DisplacedLeavesQueue` | cachelib/allocator/CacheAllocator.h:3640-3660 | in every interleaving the unmarked item it replaced is off the queue at some point before the operation ends |
| `LinkEffects.InsertBinds` | cachelib/allocator/CacheAllocator.h:3571-3601 | insert binds the item if and only if its key is free; otherwise nothing changes and the next step takes it off the queue |
| `LinkEffects.InsertTakesEffect` | cachelib/allocator/CacheAllocator.h:3571-3601 | in every interleaving insert has bound its item by then, or its key was taken at some point |
| `LinkEffects.RemoveUnlinks` | cachelib/allocator/CacheAllocator.h:4177-4226 | after the first step no key reaches the item, every other key names what it named, and the next step takes it off the queue |
| `LinkEffects.SwapStarts` | cachelib/allocator/CacheAllocator.h:3151-3179 | the new item takes over the key if and only if the old one had it; otherwise nothing happens |
| `LinkEffects.SwapRequeues` | cachelib/allocator/CacheAllocator.h:3511-3541 | the new item takes the old one's place in the queue; when the old one is no longer queued nothing changes and the new one is to be unbound |
| `LinkEffects.SwapUndone` | cachelib/allocator/CacheAllocator.h:3151-3179 | a failed replacement leaves the new item unreachable and the other keys alone |
| `LinkEffects.SwapLooksAgain` | cachelib/allocator/CacheAllocator.h:3151-3179 | a new item that was removed meanwhile leaves the queue again |
| `LinkEffects.MarkingStarts` | cachelib/allocator/CacheAllocator.h:5344-5382 | eviction and both moves begin by marking an unmarked item; a direct candidate leaves its queue at once |
| `LinkEffects.EvictionUnlinks` | cachelib/allocator/CacheAllocator.h:3828-3839 | eviction unbinds the item, takes it off the queue, clears the mark and frees it, in this order |
| `LinkEffects.MoveRelinks` | cachelib/allocator/CacheAllocator.h:3717-3774 | a move that does not give up queues the copy, gives it the key if and only if the item still has it, takes the item off the queue and frees it; a copy that came too late leaves the queue and the item is evicted |
| `LinkEffects.MoveGivesUp` | cachelib/allocator/CacheAllocator.h:5161-5242 | a move that gives up turns into the eviction of the same item |
| `LinkEffects.MoveTakesEffect` | cachelib/allocator/CacheAllocator.h:3717-3774 | in every interleaving a move has given the key to its copy by then, or the item lost its key at some point |
| `LinkEffects.HandleSteps` | cachelib/allocator/CacheAllocator.h:3459-3509 | a lookup hits exactly the unmarked item its key names; a dropped handle leads to freeing if and only if nothing refers to the item any more |
| `WakeUp.WakeUpsLostExactly` | cachelib/allocator/CacheAllocator.h:5205-5230 | in every interleaving, every parked context can be found and has a thread that will wake its key in every state, if and only if no step uses a slot again under another key that such contexts depend on |
| `WakeUp.WakeUpsExact` | cachelib/allocator/CacheAllocator.h:2296-2299 | the same for one step: it keeps all parked contexts found and attended if and only if it is none that loses one |
| `LostWakeUp.LostWakeUp` | cachelib/allocator/CacheAllocator.h:5205-5230 | a run of a reader and a release thread that ends with both idle, nothing left to do, and the reader's context parked and never set |
| `WakeUp.WaitersAttended` | cachelib/allocator/CacheAllocator.h:3676-3697 | after every run without such a step a key with parked waiters has a release thread that is not waiting itself and has yet to wake that key; after any run no context was set twice |
| `WakeUp.AllWoken` | cachelib/allocator/CacheAllocator.h:3699-3715 | after every run without such a step, when only blocked threads are left the move map is empty, every context was set exactly once, and the blocked threads can go on |
| `WakeUp.EveryRunFinishes` | cachelib/allocator/CacheAllocator.h:3459-3483 | once no read starts and no item is marked, every interleaving takes at most a fixed number of steps; and unless a wake-up was lost, a state in which no thread can take one is exactly one with nobody inside an operation, nobody parked, and every context set once |
| `WakeUp.QuietStep` | cachelib/allocator/CacheAllocator.h:3676-3715 | every step of a thread, other than starting a read or marking an item, leaves less to do |
| `WakeUp.QuietRunsEnd` | cachelib/allocator/CacheAllocator.h:3676-3715 | so the steps of any such run are at most what was left to do |
| `WakeUp.NextStep` | cachelib/allocator/CacheAllocator.h:3459-3483 | a thread inside an operation that does not wait for its own context can take a step |
| `WakeUp.AttendedKept` | cachelib/allocator/CacheAllocator.h:5161-5242 | every step that takes no slot into use keeps every parked context found and attended |
| `WakeUp.ParkedAttended` | cachelib/allocator/CacheAllocator.h:3676-3697 | parking, which needs a moving item under the move lock, finds an unblocked thread that will wake the key |
| `WakeUp.ContextsKept` | cachelib/allocator/CacheAllocator.h:3699-3715 | every step keeps each context in exactly one list while unset, and in none once set |
| `WakeUp.WaitSteps` | cachelib/allocator/CacheAllocator.h:3676-3715 | a reader is refused exactly by a moving item; if it still moves under the lock a fresh context is parked behind those of its key, else the reader tries again; a waker takes all contexts of its key out of the map and sets them in arrival order |
| `WakeUp.ReleaseSteps` | cachelib/allocator/CacheAllocator.h:5161-5242 | a release thread marks an unmarked item; afterwards it is gone, or a parent whose mark is taken off before it is looked up again |
| `WakeUp.RunKeeps` | cachelib/allocator/CacheAllocator.h:5287-5325 | every run, whatever slots are used again, keeps marks and contexts in order |
| `WakeUp.NotifyAll` | cachelib/allocator/CacheAllocator.h:2271-2290 | the waiters whose clones fit in the reference count get a handle, the one whose clone overflows is never set, the later ones get none; with an empty handle all are set |
| `WakeUp.AllNotified` | cachelib/allocator/Refcount.h:143-170 | when nobody else changes the count, all waiters are set if and only if the count leaves room for a clone for each |
| `WakeUp.RoomForClones` | cachelib/allocator/Refcount.h:143-170 | that room is enough while others only drop references, and needed while they only take some |
| `WakeUp.FullCount` | cachelib/allocator/CacheAllocator.h:2282-2289 | at a full count the first waiter is never set |
| `MM2Q.AcceptedSizes` | cachelib/allocator/MM2Q.h:280-305 | the size check, with 64-bit wrap-around, accepts exactly all hot, or three positive shares that add up to 100 |
| `MM2Q.Container.Rebalance` | cachelib/allocator/MM2Q.h:842-883 | the loops leave the queues of the closed form `Rebalanced`, and the bits of every node follow its queue |
| `MM2Q.Container.ShrinkWarm` | cachelib/allocator/MM2Q.h:844-866 | the overflow of the warm part goes, in order, before the cold queue, the tail queue first |
| `MM2Q.Container.ShrinkHot` | cachelib/allocator/MM2Q.h:868-878 | the overflow of the hot queue goes, in order, before the cold queue |
| `MM2Q.Container.AdjustColdTail` | cachelib/allocator/MM2Q.h:1040-1050 | the end of the cold queue fills its tail queue, in order |
| `MM2Q.Container.AdjustWarmTail` | cachelib/allocator/MM2Q.h:1040-1050 | the end of the warm queue fills its tail queue, in order |
| `MM2Q.Container.Add` | cachelib/allocator/MM2Q.h:885-903 | adds an absent node at the head of the hot queue and rebalances; keeps the container valid |
| `MM2Q.Container.Remove` | cachelib/allocator/MM2Q.h:968-977 | takes a linked node out of the queue its bits name and rebalances; keeps the container valid |
| `MM2Q.Container.RemoveAt` | cachelib/allocator/MM2Q.h:979-989 | the same without rebalancing |
| `MM2Q.Container.Replace` | cachelib/allocator/MM2Q.h:991-1025 | puts the new node in the old one's place; the container stays valid if and only if the new node's own bits fit the queue |
| `MM2Q.Container.RecordAccess` | cachelib/allocator/MM2Q.h:705-772 | a due access promotes hot to hot, warm and cold to warm, and rebalances when asked to |
| `MM2Q.Container.SetConfig` | cachelib/allocator/MM2Q.h:942-961 | tail tracking cannot be turned on or off |
| `MM2Q.BitsNameQueue` | cachelib/allocator/MM2Q.h:830-840 | in a valid container every linked node is in exactly one queue, the one getLruType names |
| `MM2Q.RebalancedTimes` | cachelib/allocator/MM2Q.h:842-883 | rebalancing keeps every node, as often as it occurs |
| `MM2Q.RebalancedSizes` | cachelib/allocator/MM2Q.h:842-883 | warm and hot are within their shares, cold has at least its own, and tails that were not too long are as full as they can be |
| `MM2Q.AddedValid` | cachelib/allocator/MM2Q.h:885-903 | adding keeps every node in exactly the queue its bits name |
| `MM2Q.RemovedValid` | cachelib/allocator/MM2Q.h:929-940 | so does removing, with or without rebalancing |
| `MM2Q.AccessedValid` | cachelib/allocator/MM2Q.h:705-772 | so does an access |
| `MM2Q.ReplacedValid` | cachelib/allocator/MM2Q.h:991-1025 | replacing does so if and only if the new node brings no foreign bit along |
| `MM2QRuns.PlacedInRuns` | cachelib/allocator/MM2Q.h:830-840 | after every run, with or without tail tracking, in which no replacement brings a stale bit along, each linked node is in exactly the queue its bits name |
| `MM2QRuns.StepValid` | cachelib/allocator/MM2Q.h:885-1025 | every operation keeps the container valid |
| `MM2QRuns.StaleBit` | cachelib/allocator/MM2Q.h:991-1025 | a run after which replacing a warm node by one that kept its cold bit breaks the container |
| `MM2QRuns.BalancedAfterRebalance` | cachelib/allocator/MM2Q.h:842-883 | after every run in which no configuration cuts the tails, adding, removing and a rebalancing access leave warm and hot within their shares, cold with at least its own, and full tails |
| `MM2QRuns.StepTailsFit` | cachelib/allocator/MM2Q.h:1040-1050 | tails within their size stay so under an operation if and only if it is no configuration that cuts them |
| `MM2QRuns.RunTailsFit` | cachelib/allocator/MM2Q.h:1040-1050 | so they do along every run without such a configuration |
| `MM2QRuns.FullTailsKept` | cachelib/allocator/MM2Q.h:41-53 | from full tails an operation leads to full tails if and only if it is none of the listed kinds |
| `MM2QRuns.RunFullTails` | cachelib/allocator/MM2Q.h:41-53 | so the tails are full after every run without such an operation |
| `MM2QRuns.ShortTail` | cachelib/allocator/MM2Q.h:979-989 | a run that ends with a cold node and an empty cold tail |
| `MM2QTransparency.StepTransparent` | cachelib/allocator/MM2Q.h:705-772 | one operation on five queues, read with the tails appended, is the same operation on the container without tails |
| `MM2QTransparency.RunTransparent` | cachelib/allocator/MM2Q.h:842-903 | so is every run |
| `MM2QTransparency.SameEvictionOrder` | cachelib/allocator/MM2Q.h:41-53 | every run gives the same eviction order with tail tracking as without; what that order is, is `MM2QEffects.WalkOrder` |
| `MM2QTransparency.MergedRebalanced` | cachelib/allocator/MM2Q.h:842-883 | rebalancing commutes with appending the tails |
| `MM2QRecency.RecentInEveryRun` | cachelib/allocator/MM2Q.h:705-772 | after every run with a clock that never goes back, the hot queue and the warm queue with its tail are in order of last access |
| `MM2QRecency.OldestDemoted` | cachelib/allocator/MM2Q.h:842-883 | after any such run, a node that any operation takes out of hot or of warm without unlinking it was accessed no later than every node that is there afterwards |
| `MM2QRecency.StepGood` | cachelib/allocator/MM2Q.h:885-940 | every operation keeps the container valid and both queues in order, and demotes the oldest |
| `MM2QRecency.RebalancedCuts` | cachelib/allocator/MM2Q.h:842-883 | rebalancing leaves a beginning of the hot queue and of the warm queue with its tail |
| `MM2QEffects.WalkOrder` | cachelib/allocator/MM2Q.h:905-921 | an eviction walk meets every linked node once: the cold tail, the cold queue, the hot queue, the warm tail and the warm queue, each from its tail to its head |
| `MM2QEffects.WalkByType` | cachelib/allocator/MM2Q.h:41-53 | by the nodes' own bits: a node whose queue comes earlier in that order is met first |
| `MM2QEffects.RebalancedParts` | cachelib/allocator/MM2Q.h:842-883 | of all nodes the first warm percent of the warm part and the first hot percent of the hot queue stay; the rest is put before the cold part in order, the hot ones first |
| `MM2QEffects.ShareRounds` | cachelib/allocator/MM2Q.h:842-883 | a share is the percentage rounded down, bounded from both sides |
| `MM2QEffects.AddEffect` | cachelib/allocator/MM2Q.h:885-903 | an absent node becomes the first hot one and the parts are rebalanced; a linked one changes nothing |
| `MM2QEffects.RemoveEffect` | cachelib/allocator/MM2Q.h:968-989 | exactly the node leaves its part, the others keep their order, and only a removal outside eviction rebalances |
| `MM2QEffects.AccessEffect` | cachelib/allocator/MM2Q.h:705-772 | an access counts if and only if its mode is enabled, the node is linked and the refresh time has passed; a hot node becomes the first hot one, any other the first warm one, and only coming from the cold part rebalances, when configured |
| `MM2QEffects.ReplaceEffect` | cachelib/allocator/MM2Q.h:991-1025 | the new node stands where the old one stood and has its time; every other position is unchanged |
| `MM2QEffects.ReconfigureEffect` | cachelib/allocator/MM2Q.h:942-961 | a configuration is taken unless it turns tail tracking on or off, and moves no node |
| `MMLru.Container.UpdateLruInsertionPoint` | cachelib/allocator/MMLru.h:637-677 | from any marked suffix the loops reach exactly the specified one |
| `MMLru.Container.EnsureNotInsertionPoint` | cachelib/allocator/MMLru.h:724-737 | moves the insertion point off a node, growing the marked suffix by one unless the node is alone |
| `MMLru.Container.Add` | cachelib/allocator/MMLru.h:679-698 | an absent node is linked so that an old node stands before it if and only if it was not in the tail, and at the head without a tail or with insertion at the head; the others keep their order, and the tail gets its length |
| `MMLru.Container.Remove` | cachelib/allocator/MMLru.h:739-751 | exactly the node is gone, the others keep their order, and the tail gets its length |
| `MMLru.Container.LeaveTail` | cachelib/allocator/MMLru.h:724-751 | after it the marks are exactly those of the list without the node, and of the list with the node at its head |
| `MMLru.Container.MoveToHead` | cachelib/allocator/MMLru.h:547-560 | the node is at the head, the rest in order, and the tail has its length back if it lost the node |
| `MMLru.Container.RecordAccess` | cachelib/allocator/MMLru.h:529-581 | an access counts if and only if its mode is enabled, the node is linked, and it is the first or the refresh time has passed; the node is then at the head, the others keep their order, and the marks stay exactly the suffix from the insertion point on |
| `MMLru.Container.Replace` | cachelib/allocator/MMLru.h:772-800 | the new node takes the old one's place, time and marks |
| `MMLru.Container.SetConfig` | cachelib/allocator/MMLru.h:610-631 | insertion at the head unmarks every node |
| `MMLru.Container.GetEvictionAgeStat` | cachelib/allocator/MMLru.h:590-608 | the age of the tail node, and of the node so many places before it |
| `MMLru.TailInEveryRun` | cachelib/allocator/MMLru.h:637-677 | after every run with a fixed insertion point the tail is n / 2^s of the n nodes rounded down, one if that is less, and none for an empty list or insertion at the head |
| `MMLru.PointInEveryRun` | cachelib/allocator/MMLru.h:637-677 | after every such run the insertion point is null if and only if the list is empty or insertion is at the head |
| `MMLru.RunExact` | cachelib/allocator/MMLru.h:637-751 | every run keeps the list free of repetitions and the tail exact |
| `MMLru.RunSorted` | cachelib/allocator/MMLru.h:529-560 | with insertion at the head and a clock that never goes back the list stays sorted by update time |
| `MMLru.TailIsOldest` | cachelib/allocator/MMLru.h:590-608 | the tail node has the largest age, no projected age exceeds it, and ages do not wrap |
| `MMLru.ShiftDivides` | cachelib/allocator/MMLru.h:655-661 | shifting by s divides by 2^s and rounds down |
| `MMLru.TailIsProper` | cachelib/allocator/MMLru.h:655-661 | the tail never reaches the head of a list of two or more |
| `Chains.PushShape` | cachelib/allocator/CacheAllocator.h:3010-3014 | adding a child in front keeps the chains finite, disjoint and keyed by their parents |
| `Chains.PopShape` | cachelib/allocator/CacheAllocator.h:3053-3069 | so does taking the head off, and the chain has another child exactly if the head has a next hook |
| `Chains.SubstituteShape` | cachelib/allocator/CacheAllocator.h:3208-3244 | so does putting a child in the place of another |
| `Chains.TransferShape` | cachelib/allocator/CacheAllocator.h:3094-3132 | so does handing a chain to a parent without one |
| `Chains.DiscardShape` | cachelib/allocator/CacheAllocator.h:3379-3429 | so does releasing a parent with its chain |
| `Chains.AddValid` | cachelib/allocator/CacheAllocator.h:2998-3042 | adding a child keeps chains, references, counters and slots in order |
| `Chains.PopValid` | cachelib/allocator/CacheAllocator.h:3044-3079 | so does popping one |
| `Chains.ReplaceValid` | cachelib/allocator/CacheAllocator.h:3181-3299 | so does replacing one |
| `Chains.TransferValid` | cachelib/allocator/CacheAllocator.h:3094-3132 | so does transferring a chain |
| `Chains.ReleaseValid` | cachelib/allocator/CacheAllocator.h:3301-3440 | so does giving a drained item and its children back |
| `Slots.ApplyValid` | cachelib/allocator/CacheAllocator.h:3301-3440 | so does every operation on items |
| `Slots.StacksInEveryRun` | cachelib/allocator/CacheAllocator.h:2998-3132 | after every run: one stack of distinct children per parent, disjoint and keyed by it, only heads in the table, the chained flag if and only if the chain is non-empty, one reference per linked child, and counters equal to the number of chains and the sum of their lengths |
| `Slots.ChildrenCount` | cachelib/allocator/CacheAllocator.h:3010-3042 | the linked children are as many as the lengths of all chains add up to |
| `Slots.SlotsInEveryRun` | cachelib/allocator/CacheAllocator.h:3841-3991 | after every run a slot is free if and only if it is not held, not linked and not handed over for reuse |
| `Slots.PopUndoesAdd` | cachelib/allocator/CacheAllocator.h:2998-3079 | popping right after adding returns the child added and restores every field: hooks, table, flags, counters, references and queues |
| `Slots.EvictValid` | cachelib/allocator/CacheAllocator.h:3958-3991 | evicting a queued item's candidate keeps everything in order, and the item is in the candidate's family |
| `Slots.MoveValid` | cachelib/allocator/CacheAllocator.h:3775-3812 | moving a child keeps everything in order and frees the old slot |
| `Slots.MovedValid` | cachelib/allocator/CacheAllocator.h:3717-3774 | moving an item keeps everything in order: the new item has its chain and its place in both containers, and the old slot is freed |
| `Slots.HeldTransferValid` | cachelib/allocator/CacheAllocator.h:3133-3179 | handing a chain over and replacing its parent in both containers keeps everything in order |
| `SlotEffects.StepEffect` | cachelib/allocator/CacheAllocator.h:2998-3440 | what each of the operations on items does, seen from outside: which slots are handed out, queued, found by key, marked or given away, the handles of every item, and the children of every parent in order |
| `SlotEffects.EvictableExactly` | cachelib/allocator/Refcount.h:277-300 | a queued item can be evicted if and only if its owner, the parent whose chain it is in or else the item itself, is not held, not marked and still queued |
| `SlotEffects.EvictEffect` | cachelib/allocator/CacheAllocator.h:3958-3991 | the owner and all its children are gone from both containers and freed, except for the slot kept for reuse |
| `ChainSteps.StacksWhenFree` | cachelib/allocator/CacheAllocator.h:2998-3079 | with adding, popping and replacing children taken step by step, and all that needs no chain lock interleaved, all of the stacks property holds whenever no chain operation is under way |
| `ChainSteps.OtherChainsIntact` | cachelib/allocator/CacheAllocator.h:2998-3079 | while one is under way, table, hooks, flag, references and queue agree on the chain of every other parent at every step |
| `ChainSteps.CallsAreAtomic` | cachelib/allocator/CacheAllocator.h:3181-3299 | a chain operation that has taken its steps can end, and has done to the state that others have made meanwhile what the whole call does |
| `ChainSteps.OthersCommute` | cachelib/allocator/CacheAllocator.h:3841-3957 | what others do without the chain lock, eviction included, they do to the state around the operation's own part |
| `ChainSteps.CallEnds` | cachelib/allocator/CacheAllocator.h:3044-3079 | undisturbed, the steps of each chain operation make the whole call |
| `ItemStore.Items.AddChainedItem` | cachelib/allocator/CacheAllocator.h:2998-3042 | pushes a child, or refuses missing arguments and items that are not children |
| `ItemStore.Items.PopChainedItem` | cachelib/allocator/CacheAllocator.h:3044-3079 | pops and returns the head, or refuses a missing parent or one without children |
| `ItemStore.Items.ReplaceInChain` | cachelib/allocator/CacheAllocator.h:3208-3240 | the walk finds the predecessor and relinks exactly the hooks around the replaced child |
| `ItemStore.Items.ReplaceChainedItem` | cachelib/allocator/CacheAllocator.h:3181-3206 | replaces the child in place and returns it, or refuses exactly the listed mismatches |
| `ItemStore.Items.TransferChain` | cachelib/allocator/CacheAllocator.h:3094-3132 | hands the chain over with every child's key changed, unless the new parent has one |
| `ItemStore.Items.ChangeKeys` | cachelib/allocator/CacheAllocator.h:3113-3122 | the walk changes the key of every child of the chain and of no other |
| `ItemStore.Items.FreeChain` | cachelib/allocator/CacheAllocator.h:3402-3427 | the walk unlinks and frees every child once, except the one to recycle, and says whether it met it |
| `ItemStore.Items.ReleaseBackToAllocator` | cachelib/allocator/CacheAllocator.h:3301-3440 | frees the item and each child once except the one to recycle; recycled if and only if that is the item or in its chain; refuses undrained items and recycling through a child |
| `ItemStore.Items.GetNextCandidate` | cachelib/allocator/CacheAllocator.h:3841-3957 | takes the first queued item whose owner can be marked, within the tries left, or in the whole queue without a limit; it finds none if and only if the owner of every one of them is held, marked or off its queue |
| `ItemStore.Items.FindEviction` | cachelib/allocator/CacheAllocator.h:3958-3991 | with a limit it returns none if and only if, for every queued item within it, the owner is held, marked or off its queue; the slot it returns is the first whose owner is not, and the owner's family is gone except for it; it ends within the limit, or without one if anything can be evicted |
| `EvictionRace.EvictsFamily` | cachelib/allocator/CacheAllocator.h:3862-3989 | in every interleaving, a candidate that can be marked is released with exactly its present family, every slot of which was handed out and occurs once; the slot asked for is returned if and only if it is in that family, and otherwise stays queued in the chain of its present parent, and the candidate was out of a container at some time since it was read |
| `EvictionRace.InvKept` | cachelib/allocator/CacheAllocator.h:3862-3936 | every step keeps all chains and slots in order, and a queued item a child or none |
| `EvictionRace.RunInv` | cachelib/allocator/CacheAllocator.h:3862-3989 | so does every run |
| `EvictionRace.TakenReleases` | cachelib/allocator/CacheAllocator.h:3924-3936 | checking the parent again takes the child off its queue exactly if it is released with the candidate |
| `EvictionRace.ParentStays` | cachelib/allocator/CacheAllocator.h:3133-3149 | no operation takes a queued child from a parent that stays in both containers |
| `ParentReused.SlotReused` | cachelib/allocator/CacheAllocator.h:3982-3989 | a run from an empty cache in which the parent's slot is used again after the read, and the eviction releases it, returns nothing and leaves the child queued in its new chain |
| `ParentReused.InsertedAgain` | cachelib/allocator/CacheAllocator.h:3603-3660 | such a run in which the parent is not freed but inserted again by its holder |
| `HashTable.FindInBucket` | cachelib/allocator/ChainedHashTable.h:833-842 | finds the node with the key in the chain, if any |
| `HashTable.FindWithPrev` | cachelib/allocator/ChainedHashTable.h:844-859 | and the node before it |
| `HashTable.InsertOrReplaceInBucket` | cachelib/allocator/ChainedHashTable.h:780-812 | the hooks spell the chain with the node in the place of its key's node, or in front |
| `HashTable.RemoveFromBucket` | cachelib/allocator/ChainedHashTable.h:814-831 | the hooks spell the chain without the node |
| `HashTable.Table.Insert` | cachelib/allocator/ChainedHashTable.h:1003-1022 | binds the key unless it is bound |
| `HashTable.Table.InsertOrReplace` | cachelib/allocator/ChainedHashTable.h:1024-1063 | binds the key and hands out the old node; when its handle cannot be made, heads, chains, hooks, flags and count are as before, except for the new node's own hook |
| `HashTable.Table.ReplaceIf` | cachelib/allocator/ChainedHashTable.h:1065-1091 | rebinds the key from one node to another, with the key count unchanged |
| `HashTable.Table.Remove` | cachelib/allocator/ChainedHashTable.h:1093-1110 | unbinds the node if it is bound |
| `HashTable.Table.RemoveIf` | cachelib/allocator/ChainedHashTable.h:1112-1133 | unbinds it if the predicate holds and its handle can be made, and otherwise changes nothing |
| `HashTable.Table.Find` | cachelib/allocator/ChainedHashTable.h:1135-1143 | finds exactly the bound node |
| `HashTable.BindKeeps` | cachelib/allocator/ChainedHashTable.h:780-812 | binding keeps the chains key-unique, in the right buckets, and equal to the map |
| `HashTable.UnbindKeeps` | cachelib/allocator/ChainedHashTable.h:814-831 | so does unbinding |
| `HashTable.BindBack` | cachelib/allocator/ChainedHashTable.h:1041-1052 | binding the old node again restores chains and map exactly |
| `TableIterator.NeverTwice` | cachelib/allocator/ChainedHashTable.h:1191-1220 | whatever happens to the table meanwhile, no key is visited twice |
| `TableIterator.AlwaysVisited` | cachelib/allocator/ChainedHashTable.h:1168-1220 | a key bound throughout, whose handle can be made, is visited exactly once |
| `TableIterator.VisitedWasThere` | cachelib/allocator/ChainedHashTable.h:1168-1220 | whatever happens meanwhile, a key that is visited was there, with a handle to give, at some point |
| `TableIterator.StepAdvances` | cachelib/allocator/ChainedHashTable.h:1191-1220 | every step copies one bucket more, visits one key more, or goes on to the next bucket or to the end |
| `TableIterator.AlwaysCopied` | cachelib/allocator/ChainedHashTable.h:1168-1187 | it is in the copy of its bucket |
| `TableIterator.LoadedKeys` | cachelib/allocator/ChainedHashTable.h:1168-1187 | a copy has exactly the keys whose handles can be made, each once |
| `TableIterator.Iterator.Reset` | cachelib/allocator/ChainedHashTable.h:1300-1315 | starts at the first key of the first non-empty bucket, with all keys ahead |
| `TableIterator.Iterator.Advance` | cachelib/allocator/ChainedHashTable.h:1191-1220 | goes on to the next key, with one key less ahead |
| `TableIterator.Flush` | standalone_server/CacheManager.cc:814-833 | empties the table and returns the number of keys it had |
| `TableIterator.HeldTable` | cachelib/allocator/ChainedHashTable.h:780-831 | the chains of a valid hash table are a table as the iterator needs it, with the bound keys |
| `TableIterator.IterationIsBound` | cachelib/allocator/ChainedHashTable.h:1191-1220 | an undisturbed iteration over a hash table meets each bound key once, as many as the table counts |
| `Scan.ScanPage` | standalone_server/CacheManager.cc:657-734 | a page is the first so many matching keys behind the cursor, with more if any key follows the last |
| `Scan.ScanAll` | standalone_server/CacheManager.cc:657-734 | following the cursor ends; each page is the one at the cursor of the page before, all but the last have exactly the clamped count of keys, and together they hold exactly the matching keys in iteration order |
| `Scan.PageSplits` | standalone_server/CacheManager.cc:713-727 | a page and the matching keys behind its cursor are the matching keys it started from, and there are fewer keys behind |
| `Scan.MoreExactly` | standalone_server/CacheManager.cc:713-727 | a page says there is more if and only if it is full and does not end with the last key; its last key is then the cursor |
| `Scan.LostCursor` | standalone_server/CacheManager.cc:674-690 | a cursor that is not there any more gives an empty last page |
| `Scan.Clamp` | standalone_server/CacheManager.cc:667-672 | a count from 1 to 10000 stays as it is, a larger one becomes 10000 and one that is not positive 100 |
| `Scan.ValidOrder` | cachelib/allocator/ChainedHashTable.h:1191-1220 | the iteration order of a valid table repeats no key |
| `HandleAccounting.CountsAddUp` | cachelib/allocator/Handle.h:320-349 | between operations the counters of all threads add up to the references held, less those parked in contexts and those of callback handles not yet adjusted for |
| `HandleAccounting.CountsCancel` | cachelib/allocator/Handle.h:375-404 | they add up to zero once nothing holds a reference |
| `HandleAccounting.BooksInEveryRun` | cachelib/allocator/Handle.h:320-404 | between its operations a thread's counter is what it took or was handed less what it gave back or parked itself; the references held are those taken less those given back by all threads |
| `HandleAccounting.BalancedKept` | cachelib/allocator/CacheAllocator.h:3442-3457 | every step keeps the balance, counting the changes threads have still to make |
| `HandleAccounting.ContextsKept` | cachelib/allocator/Handle.h:320-349 | every step keeps a resolved context the only owner of its reference |
| `Counters.ParsePrinted` | standalone_server/CacheManager.cc:443-462 | parsing undoes printing for every 64-bit integer, whatever follows that is not a digit |
| `Counters.ParseNumber` | standalone_server/CacheManager.cc:443-450 | a printed integer that does not fit in 64 bits is refused, any other read back |
| `Counters.NeedsDigit` | standalone_server/CacheManager.cc:443-450 | there is no number without a digit at the start or after a minus sign |
| `Counters.DecimalDigits` | standalone_server/CacheManager.cc:460-462 | printing is decimal: each character is the digit that counts its power of ten, without leading zeros |
| `Counters.CacheManager.Incr` | standalone_server/CacheManager.cc:411-472 | an opening call returns its delta, or 1 for a delta of zero, and stamps its time to live; a call on an item that has not expired returns its number plus the delta, or plus 1, wrapped to 64 bits, and keeps the expiry; without a number, or when storing fails, nothing changes |
| `Counters.CacheKeepsWindows` | standalone_server/CacheManager.cc:411-472 | every sequence of calls on the cached decimal has the results of the same calls on an unbounded running sum with an end, wrapped to 64 bits |
| `Counters.FixedWindow` | standalone_server/CacheManager.cc:411-472 | an opening call returns its own delta, or 1 for a delta of zero, and stamps its time to live; calls before that end return the sum of the deltas since then and of 1 for each that is zero, wrapped to 64 bits, leave the expiry, and only the opening call says that it set it |
| `Counters.WrapAdd` | standalone_server/CacheManager.cc:459 | wrapping at every call is wrapping once |
| `Counters.WrapExact` | standalone_server/CacheManager.cc:459 | a sum is exact if and only if it fits in 64 bits |
| `Counters.InsideWindow` | standalone_server/CacheManager.cc:440-462 | calls before the end of a window return its running sum and leave its end |
| `Glob.Translate` | standalone_server/CacheManager.cc:607-636 | the loop emits one piece per character |
| `Glob.SyntaxCharacters` | standalone_server/CacheManager.cc:617-640 | the syntax characters of the grammar are the two wildcards and the twelve characters the translation escapes |
| `Glob.TranslationParses` | standalone_server/CacheManager.cc:613-638 | the emitted expression parses as one term per glob character |
| `Glob.TermsMean` | standalone_server/CacheManager.cc:638-640 | these terms match a key if and only if the glob does with wildcards that exclude line terminators |
| `Glob.LinesDontMatter` | standalone_server/CacheManager.cc:638-640 | on keys without line terminators that is the glob |
| `Glob.AgreesWithoutLines` | standalone_server/CacheManager.cc:638-640 | expression and glob agree on a key for every pattern if and only if it has no line terminator |
| `Glob.MatchesPattern` | standalone_server/CacheManager.cc:607-646 | which keys are scanned, for all keys, and by the plain glob for keys without line terminators |
| `Glob.LineTerminatorCounterexample` | standalone_server/CacheManager.cc:638-640 | a key with a line terminator that the glob matches and its expression does not |
| `Glob.LinesMatchLess` | standalone_server/CacheManager.cc:638-640 | the expression never matches more than the glob |
| `PoolStats.Aggregate.AddPool` | cachelib/allocator/CacheStats.cpp:164-282 | refuses exactly when there would be too many sizes; otherwise ids stay dense, sizes distinct, and every total is the sum |
| `PoolStats.Aggregate.AddClass` | cachelib/allocator/CacheStats.cpp:202-276 | adds one class's counters to its size and to the grand total, and nothing else |
| `PoolStats.Aggregate.NewClassId` | cachelib/allocator/CacheStats.cpp:264-271 | the search finds the next id |
| `PoolStats.SumCounters` | cachelib/allocator/CacheStats.cpp:360-414 | the loop of the accessors sums over all classes |
| `PoolStats.AccessorsAdd` | cachelib/allocator/CacheStats.cpp:360-414 | items, evictions, attempts, failures, fragmentation and active allocations are additive |
| `PoolStats.AccessorsSum` | cachelib/allocator/CacheStats.cpp:360-414 | each accessor sums the counter it is named after over all classes |
| `PoolStats.TotalAmount` | cachelib/allocator/CacheStats.cpp:202-276 | every counter of a total is the sum of that counter over the classes of that size |
| `PoolStats.HeaderAdds` | cachelib/allocator/CacheStats.cpp:164-200 | every entry of the header is added |
| `PoolStats.AggregatePools` | cachelib/allocator/Cache.cpp:613-630 | when the pools can be aggregated no addition is refused, and per-size totals and every header entry are the sums over the pools |
| `PoolStats.OrderIrrelevant` | cachelib/allocator/Cache.cpp:613-630 | the totals do not depend on the order of the pools |
| `Layout.Construct` | cachelib/allocator/KAllocation.h:99-119 | writes sizes and key and leaves the value bytes, or refuses and writes nothing |
| `Layout.ReadBack` | cachelib/allocator/KAllocation.h:128-191 | key and size are read back, and the value region follows the key and ends the allocation |
| `Layout.ExactFit` | cachelib/allocator/CacheItem.h:598-625 | the required size is exactly the header, the key and the value, and never 0 for a valid key and size |
| `Layout.ChangeKey` | cachelib/allocator/KAllocation.h:145-151 | replaces a key of the same size, leaves everything else, and refuses other sizes |
| `Layout.ChainedReadBack` | cachelib/allocator/CacheItem.h:993-1049 | the same for a chained item with its payload header |
| `Layout.NumberBytes` | cachelib/allocator/KAllocation.h:162-180 | sizes are read back from their bytes |
| `Layout.PackedWord` | cachelib/allocator/KAllocation.h:162-191 | the first word has the size of the value in its low 24 bits and that of a small key in the high 8, 0 for a large one, whose size is the next word; then comes the key |
| `Layout.ByteAt` | cachelib/allocator/KAllocation.h:162-180 | the lowest byte comes first |

## Left out

- NVM cache, tombstones, put tokens and admission policies are absent.
- Persistence, save and restore, shared memory and background workers.
- The gRPC service, the metrics server and the rebalance and pool-optimizer strategies.
- Eviction-age averages, latency percentiles, rates, `oldestTimeSec` and `numTailAccesses`: reporting that is not summed.
- The ratio-based refresh time of both eviction containers: the refresh time is constant.
- Lock implementations, try-lock promotion, memory ordering and pointer compression: steps are atomic.
- Threads that keep a moving item marked because a move callback throws.
- compareAndSwap and the other counter operations of the server, which share `incr`'s parsing and printing.
- Slots.SlotsInEveryRun: operations on chains and slots are whole calls, not the single steps the link protocol splits insertion, removal, eviction and moving into.
- ChainSteps.StacksWhenFree: one chain operation at a time, where the code locks by parent key; child moves and transfers are whole calls; the handle an operation has on the head in passing is left out.
- LinkTheorems.NoOrphan: the second lookup of a moved child's parent uses the key the parent had; that its slot may be used again under another key is part of `WakeUp.dfy` only.
- WakeUp.WakeUpsLostExactly: an entry whose key was overwritten is found by no other key, and is found again only under its own.
- EvictionRace.EvictsFamily: only the evicting threads are split, before the marking; from the marking on the candidate is theirs alone. Calls of others are whole, and wait while they need the lock of a queue an evicting thread holds.
- WakeUp.NotifyAll: ready callbacks, which clone the handle once more, are not part of it; the interleavings of the other results in that file set every waiter taken.
- Counters.CacheManager.Incr: the sum wraps around in two's complement, where C++ leaves signed overflow undefined.
- ItemStore.Items.FindEviction: without a search limit, something in the queue has to be evictable; otherwise the search does not end.
- ItemStore.Items.AddChainedItem: the child has to have been allocated for this parent and to have one handle; the code only asserts this.
- HashTable.Table.ReplaceIf: both nodes have the same key and the new one is not in the table, as its callers ensure.
- PoolStats.Aggregate.AddPool: counters do not wrap at 64 bits.
- Glob.TranslationParses: a backslash may escape every syntax character, as later editions of ECMA-262 allow; the 3rd edition does not list the dollar sign.
- Layout.ExactFit: the size of the item header is a parameter, at most 1024 bytes.
