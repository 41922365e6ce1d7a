# Kernel core: allocator, fair scheduler, locks and lists

A Dafny model of five pieces of the kernel, with proofs of what they guarantee over whole runs.

| piece | source | files |
|---|---|---|
| buddy page allocator | `kernel/mm/buddy.c` | `Bits`, `Buddy`, `BuddyBlocks`, `BuddyInvariant`, `BuddyOps`, `BuddyFit`, `BuddyMove`, `BuddyRoundTrip`, `BuddyChoice`, `BuddyRuns`, `BuddyRings`, `BuddyZone` |
| fair scheduler | `kernel/core/sched/sched_fair.c` | `FixedPoint`, `Cfs`, `CfsTimeline`, `CfsRuns`, `CfsOrder`, `CfsSleepers`, `CfsPlacement`, `CfsPick`, `CfsClock`, `CfsWrap`, `CfsWindow`, `CfsFairness`, `CfsFairWindow`, `CfsQueue`, `Hierarchy` |
| reader/writer lock | `kernel/include/spinlock.h` | `RwLock`, `RwProgress` |
| circular lists | `kernel/include/list.h` | `Lists` |
| borrowed address spaces | `kernel/core/sched/sched.c` | `LazyMm` |

`Common` holds what the pieces share. `dafny verify dfyconfig.toml` checks everything.

## Main results

- **Allocator.** In every run of hand-overs, allocations, frees and relabellings from an initialised zone, each
  page is in exactly one free block or one outstanding block, the lists, flags and counters agree, and no two
  buddies stay free side by side (`BuddyRuns.PagesConserved`). Allocation followed by a free restores every list
  in order (`BuddyRoundTrip.RoundTrip`). An allocation fails exactly when no naturally aligned run of that size is
  free (`BuddyRuns.ReachableComplete`), and which block it takes is spelled out (`BuddyChoice`). The variable-stride relabelling loop misses nothing (`BuddyMove`).
  The class `BuddyZone.ZoneObject` does all this in place over circular lists threaded through the pages, where a
  delete unlinks a page without knowing its list, and follows every run (`BuddyZone.Replay`).
- **Fair scheduler.** The timeline invariant, the order of equal keys and the monotone `min_vruntime` hold over all
  runs (`CfsRuns.RunOk`, `CfsOrder.FirstLinkedFirst`). From conditions on the queue alone the 64-bit code is the
  unbounded one modulo 2^64, insertion for insertion and pick for pick (`CfsWindow.WindowRun`), and the class
  `CfsQueue.RunQueue` follows every such run in place. CPU time is clock time, handed out once (`CfsClock.RunClock`), an entity
  that moves between queues keeps its distance from min_vruntime (`CfsPlacement.MoveKeepsDistance`), and whose turn it
  is follows from the line and the buddies (`CfsPick.PickChanges`). The fixed-point charge is within a proved error, and over
  unbounded runs any two entities' weighted CPU times stay within a fixed distance (`CfsFairness.WeightedFairness`),
  in 64-bit arithmetic too (`CfsFairWindow.WrappedFairness`).
- **Reader/writer lock.** Exclusion, writer preference and reader drain for any number of threads under every
  interleaving of single accesses. A free lock is acquired within a fixed number of steps, and a trylock is refused
  only for a reason (`RwProgress`).
- **Lists.** Cut, splice, move and reverse on the heap refine sequence operations and touch no other node.
- **Address spaces.** An exact account of every reference a switch or a fork takes, keeps or loses; every task runs on
  the address space loaded on its processor (`LazyMm.RunsOnLoaded`).

## How the model reads the source

Each imperative piece appears twice: as functions on a value, which carry the theorems, and as a class whose
methods, with the loops of the source, are proved to compute those functions. The allocator class holds the free
lists as rings of `Lists.ListHead` nodes; its methods ask for a well-formed zone, and a free for a block that is not
free, as the source's callers guarantee. The lock is a transition system with one step per atomic access. The
scheduler functions take the arithmetic as a parameter: `Wrap` is 64-bit modular arithmetic, `Wide` is the same code
over unbounded integers.

Where the code and its evident intent differ, the model follows the code, and the difference is a result:

- `__rmqueue_fallback` counts an unsigned order down. For order 0 with nothing to find it leaves the array; the
  model returns `OutOfBounds` and proves that this happens exactly then (`BuddyOps.FallbackGood`);
  `BuddyOps.InitialRunAway` is a witness.
- `steal_suitable_fallback` reads the order after the delete has zeroed it, so it never moves anything
  (`BuddyOps.StealDoesNothing`).
- Queued vruntimes within 2^63 of `min_vruntime` are not enough for the 64-bit code, for two reasons.
  `update_min_vruntime` also compares the current with the leftmost entity: `CfsWrap.UpdateMinWrapIff` gives the exact
  condition, `CfsWindow.WindowTooWide` a queue on which the next pick differs. `place_entity` compares a sleeper with
  the floor it is raised to: `CfsWrap.PlaceWrapIff` gives the exact condition, `CfsWindow.SleeperTooFar` a queue on
  which the sleeper is linked last instead of first. `CfsWindow.Steady` states what is enough.
- An enqueue that is not a wakeup rebases the vruntime before the charge that may advance `min_vruntime`;
  `CfsSleepers.RebaseCreditIff` says exactly when the sleeper bound survives, `CfsSleepers.RebaseBreaksCredit` is a witness.
- The result of `__calc_delta` is truncated to 64 bits; `FixedPoint.TruncatedAccurateIff` says exactly when the error
  bound survives that, and `FixedPoint.TruncationLosesTime` shows 2^60 ns at weight 15 where it does not.
- The reference a kernel-thread fork takes on an address space is never given back once the thread has been
  scheduled, however the run goes on (`LazyMm.ForkLeaks`); `LazyMm.RunExcess` is the whole account.
- `list_cut_position` at the head of a one-member list leaves the target uninitialised; the contract of
  `Lists.ListCutPosition` says so.

Readings of garbled or missing code: the second field of `struct list_head` is `prev`; the middle parameter of
`__list_splice` is the `prev` its body uses; `list_reverse` walks with a saved cursor; 64-bit `ulong` and `s64`; one
fallback table shared by both functions that use it; `pageblock_order` is `MAX_ORDER - 1`; `pfn_valid_within` holds.
Helpers the repository calls but does not define are taken as follows: `max_vruntime`, `min_vruntime` compare by
signed difference; `mul_u64_u32_shr` is a wide multiply, a shift and a truncation; `scale_load_down` is the
identity; `NICE_0_LOAD` is 1024, `WMULT_SHIFT` 32 and `WMULT_CONST` 2^32 - 1; `account_entity_enqueue` and
`account_entity_dequeue` count `nr_running`; `clear_buddies` clears what points at the entity; the three outcomes of
`wakeup_preempt_entity` in a pick are arbitrary. Clock readings are parameters.

## Model

| member | source | states |
|---|---|---|
| Bits.BuddyArithmetic | kernel/mm/buddy.c:142-145 | for an aligned block the exclusive-or partner is its sibling, above or below by parity, and the bitwise-and of the two is the lower one, aligned to the next order |
| BuddyBlocks.BuddySymmetric | kernel/mm/buddy.c:142-145 | being buddies is symmetric and keeps the alignment |
| BuddyBlocks.MergeStep | kernel/mm/buddy.c:540-553 | a vacant block and its free buddy together leave the double-sized block vacant, made of exactly their pages |
| BuddyBlocks.SplitStep | kernel/mm/buddy.c:196-201 | the upper half of a vacant block may be freed without a free buddy; the lower half stays vacant |
| BuddyBlocks.FreeRunInOneBlock | kernel/mm/buddy.c:539-559 | in a coalesced zone every naturally aligned free run lies inside one free block |
| BuddyInvariant.InitOk | kernel/mm/buddy.c:56-76 | an initialised zone is well formed and has no free page |
| BuddyInvariant.DelInv | kernel/mm/buddy.c:164-174 | taking a free block off keeps lists, flags, placement, per-order counters and free_pages in agreement |
| BuddyInvariant.AddInv | kernel/mm/buddy.c:176-188 | adding a vacant block keeps them in agreement |
| BuddyOps.MergeGood | kernel/mm/buddy.c:539-554 | the merging loop keeps the zone well formed and coalesced, loses no page and ends on a block without a free buddy |
| BuddyOps.FreeGood | kernel/mm/buddy.c:525-560 | a free adds exactly the pages of its block to the free set and keeps the zone coalesced |
| BuddyOps.ExpandGood | kernel/mm/buddy.c:190-205 | splitting returns exactly the pages beyond the requested block and creates no uncoalesced pair |
| BuddyOps.SmallestGood | kernel/mm/buddy.c:225-251 | the search hands out one vacant block and nothing else, or changes nothing; it succeeds exactly when a sufficient list is non-empty |
| BuddyOps.FindSuitableExact | kernel/mm/buddy.c:322-352 | the nr_free shortcut hides nothing: no fallback exactly when every list of the row is empty |
| BuddyOps.StealDoesNothing | kernel/mm/buddy.c:306-310 | after the delete, stealing changes nothing |
| BuddyOps.FallbackGood | kernel/mm/buddy.c:296-319 | fallback succeeds exactly when some fallback list of sufficient order is non-empty; without success the counter runs out of the array exactly for order 0 |
| BuddyOps.InitialRunAway | kernel/mm/buddy.c:296-319 | in the zone init_zone leaves, a fallback of order 0 runs out of the array |
| BuddyFit.ExpandLists | kernel/mm/buddy.c:196-201 | list by list: one upper half in front of each list in between, of the given type |
| BuddyFit.SmallestFit | kernel/mm/buddy.c:232-247 | the block is the first of the lowest sufficient order of its type; every other list is as before, up to the split-off halves |
| BuddyFit.FallbackFit | kernel/mm/buddy.c:296-316 | the block is the first of the highest order any fallback type has, by table preference; remainders go to the requested type |
| BuddyFit.FreeExact | kernel/mm/buddy.c:539-559 | the freed block grows to an enclosing aligned block that cannot grow further and heads its list; every list loses exactly the blocks inside it |
| BuddyRoundTrip.MergeUndoesExpand | kernel/mm/buddy.c:196-201 | merging takes back exactly what splitting put on the lists |
| BuddyRoundTrip.RoundTrip | kernel/mm/buddy.c:225-251 | allocate at any order, free with the same type: every list in order, every counter and every flag is restored |
| BuddyRoundTrip.RmqueueGood | kernel/mm/buddy.c:261-265 | smallest-fit then fallback succeeds exactly when a list of the type or its fallbacks can serve the order |
| BuddyRoundTrip.AllocationComplete | kernel/mm/buddy.c:261-265 | with only ordinary types free, it succeeds exactly when an aligned run of that size is entirely free |
| BuddyChoice.OwnListsFirst | kernel/mm/buddy.c:259-267 | as long as a list of the type suffices, the first block of the lowest such order is taken |
| BuddyChoice.FallbackLast | kernel/mm/buddy.c:259-267 | only otherwise a fallback type's: the first block of the preferred type at the highest order any of them has |
| BuddyChoice.NothingTaken | kernel/mm/buddy.c:259-267 | with neither, nothing changes and nothing is returned, order 0 running out of the array |
| BuddyChoice.PreferredFirst | kernel/mm/buddy.c:287-294 | the table's preference spelled out: which type stands in for which, and in what order |
| BuddyChoice.SuitableIs | kernel/mm/buddy.c:322-363 | the type found is the preferred one, and it may be stolen exactly from pageblock order on or for movable requests |
| BuddyChoice.MoveBlockExact | kernel/mm/buddy.c:380-398 | exactly the free blocks headed in the page's pageblock change to the type, unless the pageblock ends past the zone |
| BuddyChoice.StealExact | kernel/mm/buddy.c:365-378 | stealing does that exactly if the page records a pageblock's order or more |
| BuddyMove.MoveRangeIsEach | kernel/mm/buddy.c:407-425 | on any page range, jumping over each moved block gives the same zone and count as visiting every page |
| BuddyMove.MoveFreepagesExact | kernel/mm/buddy.c:400-428 | on any page range, only lists change; moved blocks head the target lists, highest first; all other members keep their order; the result is the total size moved |
| BuddyMove.MoveBlockGood | kernel/mm/buddy.c:380-398 | relabelling a pageblock keeps blocks, flags, counters and coalescing |
| BuddyRuns.RunConsistent | kernel/mm/buddy.c:225-560 | every run keeps the zone well formed and coalesced, and given pages are the free ones plus the outstanding ones, disjointly |
| BuddyRuns.PagesConserved | kernel/mm/buddy.c:48-560 | in every run from an initialised zone each given page is in exactly one free or one outstanding block; nr_free, free_pages, flags and lists agree |
| BuddyRuns.ReachableComplete | kernel/mm/buddy.c:253-320 | in every reachable zone of ordinary blocks an allocation finds nothing exactly when no aligned run of the size is free |
| BuddyRings.ListHeads | kernel/mm/buddy.c:64-69 | the nested loops leave every free list an empty ring of its own |
| BuddyRings.FreeLists.constructor | kernel/mm/buddy.c:64-69 | a node for each page, and every list an empty ring |
| BuddyRings.FreeLists.Add | kernel/mm/buddy.c:181-181 | the page heads its ring; every other ring is as before |
| BuddyRings.FreeLists.Del | kernel/mm/buddy.c:170-170 | the page leaves the one ring that holds it, which it alone determines; every other ring is as before |
| BuddyRings.FreeLists.First | kernel/mm/buddy.c:303-304 | the page whose node follows the head |
| BuddyRings.FreeLists.IsEmpty | kernel/mm/buddy.c:338-338 | whether the ring has a member |
| BuddyZone.ZoneObject.constructor | kernel/mm/buddy.c:48-76 | a well-formed zone with every list empty and every counter zero |
| BuddyZone.ZoneObject.DelPage | kernel/mm/buddy.c:164-174 | flag, private field, list, nr_free and free_pages after the delete |
| BuddyZone.ZoneObject.AddPage | kernel/mm/buddy.c:176-188 | flag, private field, list front, nr_free and free_pages after the add |
| BuddyZone.ZoneObject.Split | kernel/mm/buddy.c:190-205 | the halving loop computes the split |
| BuddyZone.ZoneObject.TakeSmallest | kernel/mm/buddy.c:225-251 | the search loop computes the smallest-fit allocation |
| BuddyZone.ZoneObject.FindFallback | kernel/mm/buddy.c:322-352 | the table loop returns the first usable fallback type and the steal flag |
| BuddyZone.ZoneObject.MoveFreepages | kernel/mm/buddy.c:400-428 | the variable-stride loop computes the relabelled zone and the count |
| BuddyZone.ZoneObject.MoveFreepagesBlock | kernel/mm/buddy.c:380-398 | clamps to the zone, or returns 0 past its end |
| BuddyZone.ZoneObject.StealFallback | kernel/mm/buddy.c:365-378 | relabels only from pageblock order on |
| BuddyZone.ZoneObject.TakeFallback | kernel/mm/buddy.c:278-320 | the countdown loop computes the fallback allocation, its run-away included |
| BuddyZone.ZoneObject.Take | kernel/mm/buddy.c:259-267 | smallest fit first, fallback only when that finds nothing |
| BuddyZone.ZoneObject.FreePage | kernel/mm/buddy.c:525-560 | the merging loop computes the coalescing free |
| BuddyZone.Replay | kernel/mm/buddy.c:225-560 | the zone in place, over its rings, follows every run of hand-overs, allocations, frees and relabellings |
| RwLock.StepInv | kernel/include/spinlock.h:216-346 | every single access keeps both counters exact, the lock word owned by at most one thread, and readers apart from writers |
| RwLock.Exclusion | kernel/include/spinlock.h:216-346 | in every interleaving a writer inside excludes all readers and all other owners; reader_count and writer_waiting count the threads between add and subtract |
| RwLock.CommittedShrinks | kernel/include/spinlock.h:223-241 | while a writer is queued the readers that are in or can still get in only become fewer |
| RwLock.WriterPreference | kernel/include/spinlock.h:263-281 | a reader that comes in before a queued writer was, when the writer registered, already between its two rechecks |
| RwLock.DrainStep | kernel/include/spinlock.h:223-241 | while the winner of the swap waits, each step of an active reader lowers its rank and no thread comes to read |
| RwLock.ReaderDrain | kernel/include/spinlock.h:266-278 | readers take at most a fixed number of steps, after which the count is zero and the writer's next read acquires |
| RwLock.DrainProgress | kernel/include/spinlock.h:266-278 | a nonzero count always has a reader whose next step lowers the measure |
| RwProgress.ReaderProgress | kernel/include/spinlock.h:216-242 | while no writer shows up, a reader on its way in reads after a fixed number of its own steps, under any interleaving |
| RwProgress.ReaderAlone | kernel/include/spinlock.h:216-242 | left alone with no writer, it reads after five steps from the start, blocking or trying |
| RwProgress.WriterAlone | kernel/include/spinlock.h:256-282 | left alone with the word clear and no reader counted, a writer holds the lock after four steps, a trylock after two |
| RwProgress.ReleaseFrees | kernel/include/spinlock.h:285-296 | the unlock leaves the word clear and nobody owning it |
| RwProgress.TrylockRefused | kernel/include/spinlock.h:298-346 | a trylock that fails met the word taken, a waiting writer (reading) or a counted reader (writing) during its call |
| RwProgress.CallReturns | kernel/include/spinlock.h:216-346 | blocking calls return only with the lock; trylocks return after at most six steps of their own |
| RwProgress.CallStarts | kernel/include/spinlock.h:216-346 | a call starts inside itself and touches nothing before its first access |
| FixedPoint.LoadWeight.UpdateInvWeight | kernel/core/sched/sched_fair.c:132-147 | fills the reciprocal of the weight once, and keeps a cached one |
| FixedPoint.LoadWeight.CalcDelta | kernel/core/sched/sched_fair.c:108-130 | both shift loops compute the normalised factor and shift; the product is shifted and truncated |
| FixedPoint.LoadWeight.CalcDeltaFair | kernel/core/sched/sched_fair.c:100-106 | returns the charge modulo 2^64, across the nice-0 shortcut |
| FixedPoint.ScaledExact | kernel/core/sched/sched_fair.c:115-129 | for the nice-0 load the loops lose no bits |
| FixedPoint.NormaliseIs | kernel/core/sched/sched_fair.c:115-127 | each loop halves just as often as 32 bits demand, rounds down and counts its halvings off the shift |
| FixedPoint.InvExact | kernel/core/sched/sched_fair.c:132-147 | the reciprocal is 2^32 - 1 over the weight rounded down, with the code's values at both ends |
| FixedPoint.ChargeAccurate | kernel/core/sched/sched_fair.c:100-147 | the charge is at most delta*1024/w and short of it by less than 1 + delta/2^22 |
| FixedPoint.TruncatedAccurateIff | kernel/core/sched/sched_fair.c:108-130 | the truncated result keeps that bound exactly when the product stays below 2^86 |
| FixedPoint.TruncationLosesTime | kernel/core/sched/sched_fair.c:108-130 | 2^60 ns at the lightest weight of the table, where it does not |
| FixedPoint.ChargeMonotone | kernel/core/sched/sched_fair.c:100-130 | more CPU time is never charged less |
| FixedPoint.ChargeAntitone | kernel/core/sched/sched_fair.c:100-147 | a heavier entity is never charged more, also across weight 1024 |
| CfsTimeline.InsertPosition | kernel/core/sched/sched_fair.c:181-204 | insertion goes behind every entry that is not greater |
| CfsTimeline.LinkTree | kernel/core/sched/sched_fair.c:181-204 | linking keeps order and membership, and the cached leftmost is the first |
| CfsTimeline.UnlinkTree | kernel/core/sched/sched_fair.c:206-216 | so does unlinking, through the successor |
| CfsRuns.EnqueueOk | kernel/core/sched/sched_fair.c:426-454 | enqueueing keeps the timeline invariant and every linked vruntime |
| CfsRuns.DequeueOk | kernel/core/sched/sched_fair.c:456-489 | so does dequeueing |
| CfsRuns.PutPrevOk | kernel/core/sched/sched_fair.c:330-345 | putting the current entity back leaves none, with the same queued set |
| CfsRuns.SetNextOk | kernel/core/sched/sched_fair.c:309-328 | the chosen entity becomes current and leaves the tree |
| CfsRuns.ChosenQueued | kernel/core/sched/sched_fair.c:272-307 | a pick chooses a queued entity whenever one is queued, and the leftmost when no buddy is set |
| CfsRuns.PickNextOk | kernel/core/sched/sched_fair.c:238-270 | a pick keeps the timeline invariant and the queued set |
| CfsRuns.StepOk | kernel/core/sched/sched_fair.c:149-489 | any operation keeps the invariant, changes no vruntime it leaves linked and never moves min_vruntime back |
| CfsRuns.RunOk | kernel/core/sched/sched_fair.c:149-489 | the same over whole runs: what stays linked keeps its vruntime |
| CfsClock.TicksClock | kernel/core/sched/sched_fair.c:65-86 | over any charges of any queue the current entity receives the time from its mark to the latest reading, once; nobody else receives any |
| CfsClock.StepClock | kernel/core/sched/sched_fair.c:65-509 | so it is in every operation, and a pick that sets an entity starts its clock |
| CfsClock.RunClock | kernel/core/sched/sched_fair.c:65-509 | over any run the CPU time of each entity is what a stopwatch says that knows only the readings and who is current |
| CfsClock.OneAtATime | kernel/core/sched/sched_fair.c:65-86 | with a clock that does not run back, two entities together receive no more than the time that passed |
| CfsPick.PickNothing | kernel/core/sched/sched_fair.c:244-245 | an empty queue gives nothing and stays as it is |
| CfsPick.PickGoesOn | kernel/core/sched/sched_fair.c:247-256 | the previous task goes on, charged and nothing else, if it is queued and no linked entity is smaller |
| CfsPick.PickChanges | kernel/core/sched/sched_fair.c:258-307 | otherwise the next, last, second or first in line, by that priority, becomes current and stops being a buddy |
| CfsPick.BuddyPicked | kernel/core/sched/sched_fair.c:283-302 | setting a buddy makes an approved pick follow it, or pass it over |
| CfsPlacement.DequeueVr | kernel/core/sched/sched_fair.c:456-483 | a sleeper leaves with its charged vruntime, anybody else with the distance from min_vruntime; nobody else moves |
| CfsPlacement.DequeueMin | kernel/core/sched/sched_fair.c:487-487 | a departure ends with the minimum the larger of itself and the least vruntime still queued |
| CfsPlacement.EnqueueVr | kernel/core/sched/sched_fair.c:426-454 | an arrival counts from the minimum before the charge unless a plain wakeup; a wakeup is raised to the charged minimum less the credit |
| CfsPlacement.MoveKeepsDistance | kernel/core/sched/sched_fair.c:426-489 | leaving one queue without sleeping and joining any without a wakeup keeps the distance from min_vruntime |
| CfsPlacement.SleepKeepsPlace | kernel/core/sched/sched_fair.c:426-509 | a sleeper wakes where it fell asleep, unless the queue has moved on by more than the credit |
| CfsOrder.StepOrder | kernel/core/sched/sched_fair.c:181-509 | entities an operation leaves linked keep their order, and who joins stands behind all that are not greater |
| CfsOrder.RunOrder | kernel/core/sched/sched_fair.c:181-509 | the same over whole runs |
| CfsOrder.FirstLinkedFirst | kernel/core/sched/sched_fair.c:181-204 | in every run, of two linked entities with equal vruntimes the one linked earlier comes first |
| CfsSleepers.MinIsLeast | kernel/core/sched/sched_fair.c:149-174 | min_vruntime becomes the larger of itself and the least queued vruntime |
| CfsSleepers.RebaseTick | kernel/core/sched/sched_fair.c:429-433 | rebasing an entity off the queue commutes with the charge, also when that entity itself is charged |
| CfsSleepers.WakeCredit | kernel/core/sched/sched_fair.c:491-509 | a wakeup, rebased or not, leaves the entity at most the credit behind and never moves it back |
| CfsSleepers.SleeperBound | kernel/core/sched/sched_fair.c:426-509 | in runs of wakeup enqueues every queued vruntime is at least min_vruntime minus the credit |
| CfsSleepers.RebaseCreditIff | kernel/core/sched/sched_fair.c:426-454 | an enqueue that is not a wakeup keeps that bound exactly when the charged relative vruntime covers the advance of min_vruntime up to the credit |
| CfsSleepers.RebaseBreaksCredit | kernel/core/sched/sched_fair.c:429-433 | a well-formed queue within the bound on which such an enqueue leaves it |
| CfsWrap.LinkWrap | kernel/core/sched/sched_fair.c:176-204 | with keys that fit 64 bits the wrapped descent inserts at the same place |
| CfsWrap.UpdateMinWrapIff | kernel/core/sched/sched_fair.c:149-174 | near the minimum, the wrapped update agrees exactly when current and leftmost are within 2^63 of each other |
| CfsWrap.PlaceWrapIff | kernel/core/sched/sched_fair.c:491-509 | the wrapped placement agrees exactly when the sleeper is within 2^63 of the floor |
| CfsWrap.PickNextWrap | kernel/core/sched/sched_fair.c:238-270 | the wrapped pick returns the same entity |
| CfsWrap.StepWrap | kernel/core/sched/sched_fair.c:65-509 | each operation whose comparisons fit 64 bits commutes with reduction modulo 2^64 |
| CfsWindow.InitialQueue | kernel/core/sched/sched.c:52-54 | the queue sched_init leaves is well formed and inside the window |
| CfsWindow.StepSafe | kernel/core/sched/sched_fair.c:149-509 | they fit when queued vruntimes, current against leftmost, the waking entity and the clock stay in the window |
| CfsWindow.WindowRun | kernel/core/sched/sched_fair.c:65-509 | whole runs inside the window: same insertions, same picks, every value modulo 2^64 |
| CfsWindow.KeysInOrder | kernel/core/sched/sched_fair.c:176-191 | inside the window the unbounded order is the order of the wrapped keys |
| CfsWindow.StepReady | kernel/core/sched/sched_fair.c:181-197 | every descent of an operation inside the window finds its tree in key order |
| CfsWindow.WrappedTimeline | kernel/core/sched/sched_fair.c:149-226 | every state of such a run has membership, key order and cached leftmost right, and no step moves the 64-bit minimum back |
| CfsWindow.WindowTooWide | kernel/core/sched/sched_fair.c:149-174 | a well-formed queue within 2^63 of its minimum on which the wrapped pick keeps the wrong task |
| CfsWindow.SleeperTooFar | kernel/core/sched/sched_fair.c:491-509 | a well-formed queue at its minimum on which a wakeup is linked at the wrong end |
| CfsFairness.RoundFair | kernel/core/sched/sched_fair.c:238-270 | a round moves only the running entity's vruntime and ends on a least one, whatever the clock |
| CfsFairness.RoundSpread | kernel/core/sched/sched_fair.c:65-98 | the spread stays within the larger of what it was and the slice charged |
| CfsFairness.WeightedFairness | kernel/core/sched/sched_fair.c:65-106 | over any run that starts from a pick, the spread stays within the larger of the initial one and the largest slice, and any two weighted CPU times, which are clock times, within the initial plus the final spread plus the rounding of the charges of the one ahead |
| CfsFairWindow.PlaySteady | kernel/core/sched/sched_fair.c:65-174 | a fair run with spread, slices and clock steps below 2^63 never leaves the window |
| CfsFairWindow.WrappedFairness | kernel/core/sched/sched_fair.c:65-270 | the same spread and the same bound on the CPU times for the 64-bit values |
| CfsQueue.FindLink | kernel/core/sched/sched_fair.c:183-197 | the descent finds the empty link between the keys not greater and the greater ones, and knows whether it is leftmost |
| CfsQueue.EraseInOrder | kernel/core/sched/sched_fair.c:215-215 | erasing a node removes it from the in-order sequence and nothing else |
| CfsQueue.RunQueue.constructor | kernel/core/sched/sched.c:52-54 | an empty queue |
| CfsQueue.RunQueue.UpdateMinVruntime | kernel/core/sched/sched_fair.c:149-174 | the new min_vruntime |
| CfsQueue.RunQueue.UpdateCurrent | kernel/core/sched/sched_fair.c:65-98 | the current entity's times and min_vruntime after a charge |
| CfsQueue.RunQueue.LinkEntity | kernel/core/sched/sched_fair.c:181-204 | tree and cached leftmost after the descent and link |
| CfsQueue.RunQueue.UnlinkEntity | kernel/core/sched/sched_fair.c:206-216 | tree and cached leftmost after the erase |
| CfsQueue.RunQueue.EnqueueEntity | kernel/core/sched/sched_fair.c:426-454 | the whole queue after rebase, charge, placement and link |
| CfsQueue.RunQueue.DequeueEntity | kernel/core/sched/sched_fair.c:456-489 | the whole queue after charge, unlink, departure and minimum update |
| CfsQueue.RunQueue.PutPrevEntity | kernel/core/sched/sched_fair.c:330-345 | the whole queue after the put |
| CfsQueue.RunQueue.SetNextEntity | kernel/core/sched/sched_fair.c:309-328 | the whole queue after the set |
| CfsQueue.RunQueue.PickFreshTask | kernel/core/sched/sched_fair.c:261-307 | leftmost, second, last and next buddy in that order of overriding |
| CfsQueue.RunQueue.PickNextTask | kernel/core/sched/sched_fair.c:238-270 | retain, or put and pick |
| CfsQueue.RunQueue.Run | kernel/core/sched/sched_fair.c:65-509 | the queue in place follows every run inside the window, modulo 2^64 |
| Hierarchy.QueueOnce | kernel/core/sched/sched_fair.c:352-376 | no queue occurs twice on a path to the root |
| Hierarchy.EnqueueOk | kernel/core/sched/sched_fair.c:347-382 | both loops add one to every queue on the path, exactly once; counts and groups stay in step |
| Hierarchy.DequeueOk | kernel/core/sched/sched_fair.c:384-424 | both loops take one from every queue on the path, exactly once; emptied groups leave, others stay |
| Hierarchy.RunCounts | kernel/core/sched/sched_fair.c:347-424 | in every run h_nr_running is the number of queued tasks below, and a group is queued exactly when its queue is not empty |
| Hierarchy.RunFromEmpty | kernel/core/sched/sched_fair.c:347-424 | so it is after every run from empty queues |
| Hierarchy.Scheduler.Enqueue | kernel/core/sched/sched_fair.c:347-382 | the two loops compute that |
| Hierarchy.Scheduler.Dequeue | kernel/core/sched/sched_fair.c:384-424 | the two loops compute that |
| LazyMm.ForkExcess | kernel/core/sched/sched.c:399-404 | a kernel-thread fork counts exactly the reference it creates |
| LazyMm.SwitchExcess | kernel/core/sched/sched.c:592-622 | a switch loses a reference in exactly two ways: a stale borrow of the incoming thread, an overwritten pending drop |
| LazyMm.FinishExcess | kernel/core/sched/sched.c:634-650 | finishing drops exactly the pending reference |
| LazyMm.NeverDroppedEarly | kernel/core/sched/sched.c:592-655 | in every run each count covers owner, borrowers and pending drops |
| LazyMm.ReferredIsAlive | kernel/core/sched/sched.c:649-650 | whatever is still referred to has a positive count |
| LazyMm.OrderlyRunsExact | kernel/core/sched/sched.c:592-655 | without kernel-thread forks and with every switch finished, counts are exact |
| LazyMm.RunExcess | kernel/core/sched/sched.c:399-655 | over any run, references counted beyond those held grow by exactly what its switches lose |
| LazyMm.ExactIffNothingLost | kernel/core/sched/sched.c:592-655 | exact counts stay exact exactly when the run loses nothing |
| LazyMm.ForkLeaks | kernel/core/sched/sched.c:399-404 | once a forked kernel thread has been scheduled, its fork reference is lost in every continuation |
| LazyMm.SwitchFrame | kernel/core/sched/sched.c:592-617 | the next one runs, a kernel thread on the address space of the one it follows, which gives up what it borrowed; nobody else is touched |
| LazyMm.ForkFrame | kernel/core/sched/sched.c:399-404 | the new thread shares and counts what its creator runs on |
| LazyMm.FinishFrame | kernel/core/sched/sched.c:634-650 | the pending drop happens once and nothing else |
| LazyMm.RunsOnLoaded | kernel/core/sched/sched.c:592-617 | in every run each task on a processor runs on the address space loaded there, that of the last user task to come in |
| LazyMm.Scheduler.SchedForkKthread | kernel/core/sched/sched.c:399-404 | task and count after the fork |
| LazyMm.Scheduler.ContextSwitch | kernel/core/sched/sched.c:592-617 | tasks, queue and count after the switch |
| LazyMm.Scheduler.FinishTaskSwitch | kernel/core/sched/sched.c:634-650 | queue and count after the drop |
| Lists.InitListHead | kernel/include/list.h:24-30 | an empty ring |
| Lists.ListEmpty | kernel/include/list.h:46-50 | true exactly when the ring has no member |
| Lists.ListAddBetween | kernel/include/list.h:74-82 | the ring with the node between the two neighbours; only three nodes are written |
| Lists.ListAdd | kernel/include/list.h:85-88 | the ring with the node in front |
| Lists.ListAddTail | kernel/include/list.h:91-96 | the ring with the node at the end |
| Lists.ListDelBetween | kernel/include/list.h:98-103 | the ring without the member, whose own links stay |
| Lists.ListDel | kernel/include/list.h:106-113 | the ring without the member, which is poisoned |
| Lists.ListMove | kernel/include/list.h:140-143 | within one ring, the member moves to the front |
| Lists.ListMoveAcross | kernel/include/list.h:140-143 | between two rings, one loses the member and the other has it in front |
| Lists.ListMoveTail | kernel/include/list.h:145-151 | within one ring, the member moves to the end |
| Lists.ListMoveTailAcross | kernel/include/list.h:145-151 | between two rings, one loses the member and the other has it at the end |
| Lists.ListRotateLeft | kernel/include/list.h:153-160 | the first member becomes the last |
| Lists.ListCutAt | kernel/include/list.h:163-173 | two rings: the members up to the entry, and the rest |
| Lists.ListCutPosition | kernel/include/list.h:176-190 | the same with the guards, cuts at the head included |
| Lists.ListSplice | kernel/include/list.h:194-212 | one ring: the spliced members in front of the others |
| Lists.CutAndSplice | kernel/include/list.h:176-212 | cutting at any member and splicing back restores the ring |
| Lists.ListReverse | kernel/include/list.h:429-435 | the ring with its members reversed |
| Lists.ListCountNodes | kernel/include/list.h:395-402 | the number of members |

## Left out

- Zone locks, watermarks, guard pages, LRU lists and compaction fields: bookkeeping without logic here; `init_zone` of a null zone and its entry in the zone table are not modelled.
- Per-CPU page caches, `alloc_pages`, `__free_pages`, `prep_new_page` and `free_page_check`: the drain is not shown, and the page count they set and reject contradict each other.
- The migratetype recorded in a page (`set_freepage_migratetype`): callers pass the type of a free explicitly.
- The RESERVE row of the fallback table: it has no terminator, so fallback is modelled for the other starting types.
- `find_suitable_fallback` with `only_stealable`: its only caller passes false.
- Red-black colours and rotations: not in the repository; the tree is unbalanced and all results are on its in-order sequence.
- Bandwidth throttling, load averages, statistics, group shares, `check_preempt_wakeup`, `yield_task_fair` and the other scheduling classes: their bodies are not shown or only set buddies, which the model sets freely.
- `place_entity` of a new entity: it is not called in the shown code.
- `__calc_delta` with a factor that drives its shift below zero: undefined in C.
- Memory ordering weaker than sequential consistency, interrupt and bottom-half lock variants, lock magic checks, and 2^32 or more threads on one lock.
- `put_task_struct` of a dead task, the release of an owner's reference, and the address-space switch itself.
- `hlist_*`, `list_replace`, `list_contains`, `list_get_nth` and the remaining splice variants: garbled, or nothing new beside the operations modelled.
- Boot, interrupts, console, system calls and user services.
