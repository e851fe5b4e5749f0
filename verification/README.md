# Object scanning and reference policy of the OpenJ9 evacuator, in Dafny

This project models the Java glue of the OpenJ9 evacuating (copying)
collector. That glue covers two things:

- the object scanners that tell the collector which slots of an object hold
  references;
- the delegate that applies Java's reference-object and ownable-synchronizer
  rules while objects are scanned.

The project has five modules:

- `ScanMaps` (`scan_maps.dfy`): machine words, the scanning-context flags and
  W-bit slot maps. W = 64 is the width of `uintptr_t`. Bit i of a map stands
  for the slot i places past the block's base (`ReferenceSlots`).
- `MixedObjectScanning` (`mixed_object_scanner.dfy`): `GC_MixedObjectScanner`,
  a class. Its `Initialize` decodes the class's instance description, which is
  either an inline map tagged by its low bit or the address of an out-of-line
  array of maps. Its `GetNextSlotMap` loop skips blocks whose map is zero. That
  loop is proved against the pure walk `NextNonzeroBlock`.
- `PointerArrayScanning` (`pointer_array_object_scanner.dfy`):
  `GC_PointerArrayObjectScanner`, a class. It covers the element range chosen
  by `newInstance`, the all-ones or low-n-bits maps, and `splitTo`. Chained
  splits are proved to partition the array.
- `LinkedObjectScanning` (`linked_object_scanner.dfy`):
  `GC_LinkedObjectScanner`'s two self-referencing field offsets and the query
  that enumerates them.
- `EvacuatorDelegation` (`evacuator_delegate.dfy`): `MM_EvacuatorDelegate`. It
  covers:
  - the clear / queue / mark decision for weak, soft and phantom references;
  - ownable-synchronizer counting;
  - merging per-thread statistics;
  - the per-cycle `_cycleCleared` flag and environment binding;
  - the two pointer-array scanner factories.

Modelling conventions:

- Addresses are slot indices (`nat`). Byte counts are slot counts times the
  slot width: 4 bytes with compressed references, 8 without.
- A NULL pointer is `None`. The one exception is the mixed scanner's end
  pointer and map pointer, which are plain slot indices: an unbound
  `MixedObjectScanner` holds 0 in them for the NULL its constructor stores.
- The scanning-context flag word is a set of `ScanFlag`s.
- The base classes `GC_ObjectScanner` and `GC_IndexableObjectScanner` are not
  part of this model. Their `setMapPtr(p, more)` is modelled as two updates:
  the map pointer becomes `p`, and the no-more-slots flag is set exactly when
  `more` is false. This agrees with the check at
  `MixedObjectScanner.hpp:127`.

Two facts about the code that the model keeps:

- `splitTo` leaves the parent scanner's end pointer where it was
  (`PointerArrayObjectScanner.hpp:174-194`).
  `PointerArrayScanning.PointerArrayObjectScanner.SplitTo` has no `modifies`
  clause, so the parent is provably unchanged.
- `scanClearable` sets `_cycleCleared` without first checking whether it was
  already set (`EvacuatorDelegate.cpp:247-254`).

## Model

| member | source | states |
|---|---|---|
| ScanMaps.LowBits | runtime/gc_glue_java/PointerArrayObjectScanner.hpp:62 | `(1 << n) - 1` for a shift below the word width is a machine word whose n low bits are set |
| ScanMaps.MaxWordIsOnes | runtime/gc_glue_java/PointerArrayObjectScanner.hpp:63 | UDATA_MAX is the word with all W bits set |
| ScanMaps.OnesBits | runtime/gc_glue_java/PointerArrayObjectScanner.hpp:61-63 | the map with n low bits set has bit i set exactly when i < n |
| ScanMaps.ReferenceSlotsMembership | runtime/gc_glue_java/MixedObjectScanner.hpp:131-134 | a slot is reported for a block exactly when it lies in the block and its bit (least significant bit = the base slot) is set |
| ScanMaps.ReferenceSlotsIncreasing | runtime/gc_glue_java/MixedObjectScanner.hpp:132-134 | bits are visited in order of increasing significance, so reported slots are strictly increasing and at or after the base |
| ScanMaps.OnesReportEverySlot | runtime/gc_glue_java/PointerArrayObjectScanner.hpp:100-104 | a map with its n low bits set reports each of the n slots of the block, in order |
| ScanMaps.SparseMapScenario | runtime/gc_glue_java/MixedObjectScanner.hpp:131-134 | the map 0b101 over three slots reports the first and the third slot only |
| MixedObjectScanning.Blocks | runtime/gc_glue_java/MixedObjectScanner.hpp:153-165 | the number of W-slot blocks the walk steps through covers n slots with less than one block to spare, and is zero only for n = 0 |
| MixedObjectScanning.NextNonzeroBlock | runtime/gc_glue_java/MixedObjectScanner.hpp:147-167 | a non-NULL result lies in [map base, end) and has a nonzero map. At least one description word was consumed, and the words left still cover the rest of the object. A NULL result has map 0 and hasNext false |
| MixedObjectScanning.NextNonzeroBlockFound | runtime/gc_glue_java/MixedObjectScanner.hpp:153-163 | a non-NULL result is the first block whose description word is nonzero, with that word as its map. The walk consumes one word per block examined and steps the base by W slots, and every skipped word is zero. hasNext holds iff more than W slots remain from the returned base |
| MixedObjectScanning.NextNonzeroBlockExhausted | runtime/gc_glue_java/MixedObjectScanner.hpp:153-167 | a NULL result means one word was consumed for every block of [map base, end) and every one of those words is zero |
| MixedObjectScanning.NextNonzeroBlockStep | runtime/gc_glue_java/MixedObjectScanner.hpp:154-164 | one loop iteration: a nonzero word returns the current block with that word and hasNext iff more than W slots remain. A zero word moves on to the next block with the next word, or ends the walk when that was the last block |
| MixedObjectScanning.ScanBlocksOrdered | runtime/gc_glue_java/MixedObjectScanner.hpp:152-167 | a whole scan hands out blocks inside [map base, end), each with a nonzero map, in increasing non-overlapping order |
| MixedObjectScanning.ScanBlocksExact | runtime/gc_glue_java/MixedObjectScanner.hpp:153-164 | the k-th block of the object is handed out, with the k-th description word as its map, exactly when that word is nonzero (no block with a nonzero map is missed, none with a zero map is returned) |
| MixedObjectScanning.ScanBlocksGenuine | runtime/gc_glue_java/MixedObjectScanner.hpp:153-164 | every block a whole scan hands out is some block k of [map base, end), based k blocks past the map base, with the k-th description word as its map: nothing spurious is returned |
| MixedObjectScanning.MixedObjectScanner.constructor | runtime/gc_glue_java/MixedObjectScanner.hpp:67-76 | an unbound scanner: a NULL (`None`) description pointer, end and map pointers 0 (standing for NULL), an empty map, no cached size, and the caller's flags |
| MixedObjectScanning.MixedObjectScanner.Initialize | runtime/gc_glue_java/MixedObjectScanner.hpp:83-128 | an odd description gives map = description >> 1 and a NULL description pointer. An even one gives map = the first description word, with the pointer at the second word. The size is cached only when below 2^32 bytes. end = object + consumed size; map base = object + header size; more-slots iff the body has more than W slots; other flags kept |
| MixedObjectScanning.MixedObjectScanner.SetMapPtr | runtime/gc_glue_java/MixedObjectScanner.hpp:124-125 | the base class's setMapPtr: the map pointer becomes p and has-more-slots becomes the given value, other flags kept |
| MixedObjectScanning.MixedObjectScanner.NewInstance | runtime/gc_glue_java/MixedObjectScanner.hpp:179-186 | a fresh scanner constructed with the caller's flags and bound to the object: the object's description words, the decoded first map and description pointer, the size cached only when below 2^32 bytes, end = object + consumed size, map base = object + header size, more-slots iff the body has more than W slots, other flags the caller's |
| MixedObjectScanning.MixedObjectScanner.GetNextSlotMap | runtime/gc_glue_java/MixedObjectScanner.hpp:140-168 | the loop returns what NextNonzeroBlock specifies and leaves the description pointer where the walk stops. With the map pointer at or past the end it returns NULL, map 0 and false, and consumes nothing |
| MixedObjectScanning.MixedObjectScanner.GetBytesRemaining | runtime/gc_glue_java/MixedObjectScanner.hpp:188-200 | 0 iff the scan pointer is NULL or at/after the end; otherwise end − scan slots, in bytes |
| PointerArrayScanning.InitialScanMap | runtime/gc_glue_java/PointerArrayObjectScanner.hpp:61-63 | the constructor's map for n = end − scan slots has the low min(n, W) bits set |
| PointerArrayScanning.InitialScanMapBits | runtime/gc_glue_java/PointerArrayObjectScanner.hpp:61-63 | bit i of the initial map is set iff i < n and i < W |
| PointerArrayScanning.NewInstanceRange | runtime/gc_glue_java/PointerArrayObjectScanner.hpp:132-143 | scan = base + startIndex. end = scan + splitAmount iff splitting is allowed and that point lies strictly between scan and limit; otherwise end = limit (splitAmount 0 or an oversize amount means "to the end") |
| PointerArrayScanning.SplitRange | runtime/gc_glue_java/PointerArrayObjectScanner.hpp:179-190 | the split chunk starts at the parent's end, never passes the limit, and has min(amount, limit − end) elements |
| PointerArrayScanning.ArraySlotMap | runtime/gc_glue_java/PointerArrayObjectScanner.hpp:95-112 | below the end the block is based at the map pointer, with the low min(r, W) bits set and hasNext iff r > W, where r = end − map pointer; at or past the end it is NULL, 0, false |
| PointerArrayScanning.ArraySlotMapReportsEverySlot | runtime/gc_glue_java/PointerArrayObjectScanner.hpp:98-105 | the block reports every remaining slot up to one map's worth, and nothing else |
| PointerArrayScanning.SplitAtLimitIsEmpty | runtime/gc_glue_java/PointerArrayObjectScanner.hpp:187-190 | splitting a parent whose end is the limit gives an empty scanner whose first map request returns NULL |
| PointerArrayScanning.ConsPartitions | runtime/gc_glue_java/PointerArrayObjectScanner.hpp:181-190 | a chunk placed in front of a partition of [chunk end, hi) gives a partition of [chunk start, hi) |
| PointerArrayScanning.ChainFromPartitions | runtime/gc_glue_java/PointerArrayObjectScanner.hpp:181-190 | repeatedly splitting from end with amount s yields contiguous, pairwise-disjoint chunks of at most s elements covering exactly [end, limit) |
| PointerArrayScanning.SplitChainPartitionsArray | runtime/gc_glue_java/PointerArrayObjectScanner.hpp:134-143 | the head scanner of newInstance(start 0, s) followed by successive splitTo(s) chunks partition the whole array, starting at its first element, each at most s long |
| PointerArrayScanning.ThousandBy300Scenario | runtime/gc_glue_java/PointerArrayObjectScanner.hpp:134-143 | 1000 elements split by 300 give [0,300), [300,600), [600,900), [900,1000) |
| PointerArrayScanning.PointerArrayObjectScanner.constructor | runtime/gc_glue_java/PointerArrayObjectScanner.hpp:59-67 | stores the array, base, limit, end and flags; the map pointer starts at scan and the map is InitialScanMap(end − scan) |
| PointerArrayScanning.PointerArrayObjectScanner.SetMapPtr | runtime/gc_glue_java/PointerArrayObjectScanner.hpp:147 | map pointer becomes p and has-more-slots becomes the given value, other flags kept |
| PointerArrayScanning.PointerArrayObjectScanner.SetFlags | runtime/gc_glue_java/PointerArrayObjectScanner.hpp:148 | sets or clears the one flag named |
| PointerArrayScanning.PointerArrayObjectScanner.NewInstance | runtime/gc_glue_java/PointerArrayObjectScanner.hpp:125-152 | a fresh scanner over NewInstanceRange with base = data pointer and limit = base + length. The map is the initial map of its range. More-slots holds iff the range exceeds W slots. Head-scanner is set iff startIndex = 0. Other flags are the caller's |
| PointerArrayScanning.PointerArrayObjectScanner.GetNextSlotMap | runtime/gc_glue_java/PointerArrayObjectScanner.hpp:89-113 | below the end the block is based at the map pointer, with the low min(r, W) bits set and hasNext iff r > W, where r = end − map pointer; at or past the end it is NULL, 0, false |
| PointerArrayScanning.PointerArrayObjectScanner.GetBytesRemaining | runtime/gc_glue_java/PointerArrayObjectScanner.hpp:154-166 | 0 iff the scan pointer is NULL or at/after the end; otherwise end − scan slots, in bytes |
| PointerArrayScanning.PointerArrayObjectScanner.SplitTo | runtime/gc_glue_java/PointerArrayObjectScanner.hpp:174-194 | a fresh scanner over SplitRange(end, limit, amount) with the same array, base, limit and flags. The parent is not modified |
| LinkedObjectScanning.NewLinkedObjectScanner | runtime/gc_glue_java/LinkedObjectScanner.hpp:53-59 | the linked-object flag is added to the caller's flags, and the two offsets are read from the class once |
| LinkedObjectScanning.GetNextSelfReferencingSlotOffset | runtime/gc_glue_java/LinkedObjectScanner.hpp:91-101 | the result is 0, field 1 or field 2. A nonzero result is field 1 after 0, or field 2 after field 1 |
| LinkedObjectScanning.NextOffsetCases | runtime/gc_glue_java/LinkedObjectScanner.hpp:94-100 | after 0 with field 1 > 0 the answer is field 1. After field 1 with field 2 > 0 (and the first case not applying) it is field 2. After anything else it is 0 |
| LinkedObjectScanning.SelfReferencingWalkEnds | runtime/gc_glue_java/LinkedObjectScanner.hpp:92-101 | unless both offsets are the same positive value, feeding answers back from 0 reports each positive offset once, in order, and then answers 0, all within three queries |
| LinkedObjectScanning.EqualOffsetsNeverEnd | runtime/gc_glue_java/LinkedObjectScanner.hpp:96-97 | with two equal positive offsets the query answers field 1 after field 1 forever, so distinct offsets are needed for the walk to end |
| EvacuatorDelegation.Decide | runtime/gc_glue_java/EvacuatorDelegate.cpp:329-364 | cleared iff the state is CLEARED or ENQUEUED. shouldScavenge iff in survivor space and not cleared. The referent must be marked iff the reference is cleared, or not in survivor space, or is a soft reference younger than the maximum age with soft-as-weak off. It must be cleared iff the kind's clear option is set |
| EvacuatorDelegation.HeapScanOutcome | runtime/gc_glue_java/EvacuatorDelegate.cpp:373-397 | the state either stays or goes INITIAL to CLEARED (ENQUEUED is never overwritten). Clearing and queueing exclude each other. Only an INITIAL reference in survivor space is queued. A referent slot handed to the reference scanner is the real slot of such a reference, and every INITIAL reference in survivor space that is not a young soft one gets its real slot. With the kind's clear option off the state is unchanged; with it on the state is no longer INITIAL |
| EvacuatorDelegation.YoungSoftReferenceIsMarked | runtime/gc_glue_java/EvacuatorDelegate.cpp:350-352 | a soft reference younger than the dynamic maximum age, with soft-as-weak off, always has its referent marked |
| EvacuatorDelegation.ClearOrQueue | runtime/gc_glue_java/EvacuatorDelegate.cpp:340-397 | the referent is cleared iff the kind's clear option is set. The object is queued iff it is not cleared and is a scavenge candidate. The slot is withheld (NULL) iff the referent must be marked |
| EvacuatorDelegation.ClearingIsIdempotent | runtime/gc_glue_java/EvacuatorDelegate.cpp:373-385 | when the kind's clear option is set, a first pass leaves the state non-INITIAL, and a repeat pass changes nothing further (same state, referent cleared again, nothing queued) |
| EvacuatorDelegation.OwnableSynchronizerOutcome | runtime/gc_glue_java/EvacuatorDelegate.cpp:280-295 | buffered iff not concurrent, a heap scan and a non-NULL link. Total survived goes up by 1 exactly then; nursery survived by 1 exactly when also in survivor space |
| EvacuatorDelegation.MergeJavaStats | runtime/gc_glue_java/EvacuatorDelegate.cpp:121-130 | merging zeroed worker statistics leaves the totals unchanged |
| EvacuatorDelegation.MergeOrderIrrelevant | runtime/gc_glue_java/EvacuatorDelegate.cpp:113-133 | swapping the first two workers merged into any running total gives the same totals |
| EvacuatorDelegation.MergeAllAppend | runtime/gc_glue_java/EvacuatorDelegate.cpp:113-133 | merging a list of workers is merging a prefix and then merging the rest into that total |
| EvacuatorDelegation.MergeAdjacentSwap | runtime/gc_glue_java/EvacuatorDelegate.cpp:113-133 | swapping two adjacent workers anywhere in the list leaves the merged totals unchanged |
| EvacuatorDelegation.ScavengerJavaStats.Clear | runtime/gc_glue_java/EvacuatorDelegate.cpp:132 | every counter of the statistics is zero afterwards |
| EvacuatorDelegation.EvacuatorDelegate.CycleStart | runtime/gc_glue_java/EvacuatorDelegate.cpp:136-151 | the cycle starts not cleared, with the evacuator's environment bound and its Java statistics zeroed |
| EvacuatorDelegation.EvacuatorDelegate.CycleEnd | runtime/gc_glue_java/EvacuatorDelegate.cpp:153-168 | the environment is unbound |
| EvacuatorDelegation.EvacuatorDelegate.ScanClearable | runtime/gc_glue_java/EvacuatorDelegate.cpp:247-254 | the cycle is marked cleared, whatever it was before. The environment's buffers may change (they are flushed) and are left unconstrained |
| EvacuatorDelegation.EvacuatorDelegate.MergeGCStats | runtime/gc_glue_java/EvacuatorDelegate.cpp:113-133 | the global statistics become old global + old worker, counter by counter, and the worker's statistics are zeroed |
| EvacuatorDelegation.EvacuatorDelegate.GetOwnableSynchronizerObjectScanner | runtime/gc_glue_java/EvacuatorDelegate.cpp:277-298 | the object is appended to the synchronizer buffer and the survived counters increase exactly as OwnableSynchronizerOutcome says; no other counter or buffer changes; a mixed scanner is returned |
| EvacuatorDelegation.EvacuatorDelegate.GetReferenceObjectScanner | runtime/gc_glue_java/EvacuatorDelegate.cpp:324-411 | in a heap scan, the state, referent, reference buffer and controller flag follow HeapScanOutcome, and the reference scanner gets its referent slot. Outside a heap scan nothing changes and a mixed scanner is returned |
| EvacuatorDelegation.EvacuatorDelegate.GetPointerArrayObjectScanner | runtime/gc_glue_java/EvacuatorDelegate.cpp:308-314 | the scanner covers the whole array, is a head scanner and carries the no-split flag. Its array, slot width, base and limit are the array's, its end lies within the limit, its map is the initial map of its range, more-slots holds iff the range exceeds W slots, and every other flag is the caller's |
| EvacuatorDelegation.EvacuatorDelegate.GetSplitPointerArrayObjectScanner | runtime/gc_glue_java/EvacuatorDelegate.cpp:316-322 | the scanner covers NewInstanceRange for the split index and amount with splitting allowed. It is a head scanner iff the index is 0 and does not carry the no-split flag. Its array, slot width, base and limit are the array's, its end lies within the limit (so it can be split further), its map is the initial map of its range, more-slots holds iff the range exceeds W slots, and every other flag is the caller's |

## Left out

- Leaf-bit maps (`J9VM_GC_LEAF_BITS` / `OMR_GC_LEAF_BITS`) are not modelled. The pointer-array `getNextSlotMap` writes `*leafMap` even in the build without that parameter (`PointerArrayObjectScanner.hpp:111`).
- The base classes `GC_ObjectScanner` and `GC_IndexableObjectScanner` are not part of this model. Their constructors are assumed to store the flags and to start the map pointer at the scan pointer. `setMapPtr` and the flag bits are modelled as described above. `getScanPtr` is a parameter of `GetBytesRemaining`, and how the base class advances the map pointer between calls is not modelled.
- `MixedObjectScanning.ScanBlocks` assumes the caller asks again at the block after the one just returned. This is the base class's job, and the base class is not shown.
- Machine-address arithmetic is over unbounded slot indices: pointer overflow and wrap-around of `uintptr_t` are not modelled. The Debug assertions in `getBytesRemaining` are not modelled either.
- The linked-object scanner's constructor and `initialize` call mixed-scanner signatures that the shown `GC_MixedObjectScanner` does not have (`LinkedObjectScanner.hpp:54`, `68`). `LinkedObjectScanning.NewLinkedObjectScanner` models only the flag and the two offsets; the object is scanned by the mixed scanner.
- In-place construction into caller-supplied memory is modelled as allocating a fresh object. The NULL `allocSpace` path of `newInstance` (`PointerArrayObjectScanner.hpp:129`) is not modelled.
- Forge allocation of the root scanner, the root scanner itself, thread rescanning, and the buffer `flush` calls in `scanClearable`, `flushForWaitState` and `flushForEndCycle` are not modelled. `EvacuatorDelegation.EvacuatorDelegate.ScanClearable` may modify the environment, so its buffers are unconstrained afterwards rather than flushed. Those collaborators are not part of this model.
- PointerArrayScanning.NewInstanceRange, PointerArrayScanning.PointerArrayObjectScanner.NewInstance and EvacuatorDelegation.EvacuatorDelegate.GetSplitPointerArrayObjectScanner require the start index to be at most the array length. The source does not check this (`PointerArrayObjectScanner.hpp:134-143`): a larger index puts the scan pointer past the limit, so end − scan wraps around and the constructor's shift count is out of range, which is undefined behaviour in C++. The callers of `getSplitPointerArrayObjectScanner` are not part of this model.
- The finalizer wake-up in `cycleEnd` is not modelled: it is thread-monitor signalling.
- `objectHasIndirectObjectsInNursery`, `scanIndirectObjects` and `prepareForEvacuation` are not modelled. They walk class statics, constant pools and heap regions through iterators that are not part of this model.
- The debug validation and tty printing are not modelled.
- The concurrent scavenger is modelled only as the boolean that switches off ownable-synchronizer bookkeeping.
- The `Assert_MM_false` on a link in survivor space (`EvacuatorDelegate.cpp:289`) is not modelled. Whether an object or link is in survivor space is an input.
- The derivation of the dynamic maximum soft-reference age is not modelled; it is an input. The cycle's reference option bits are an input too.
- The `Assert_MM_unreachable` for a reference class of another kind is not modelled: `ReferenceKind` has only weak, soft and phantom.
- `ReferenceStats::merge` and `ScavengerJavaStats::clear` are not part of this model. They are modelled as counter-by-counter addition and zeroing of the counters `mergeGCStats` touches.
- EvacuatorDelegation.EvacuatorDelegate.GetReferenceObjectScanner: the reference scanner itself (`GC_ReferenceObjectScanner`) is not part of this model. The factory's result records only the referent slot the scanner is given.
