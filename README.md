# HdBufferArray, modelled in Dafny

`HdBufferArray` (Hydra, `pxr/imaging/lib/hd/bufferArray.h`) is a bundle of
coherent GPU buffers shared by many rprims through buffer aggregation. Each
rprim owns a *range* of the array; the array keeps weak references to its
ranges, a count of them, a ceiling on how many it accepts, a dirty bit saying
its storage must be reallocated, a version counter for downstream caches, and
an ordered list of named GPU resources.

The model has four modules:

- `Wrappers`: `Option` (a null or expired pointer) and `Result` (a coding error).
- `RangeLists`: the range list as a value. A range is a number; whether it
  still exists is given as the set of ranges still alive. `Compacted` is the
  clean-up of dead entries, with lemmas on order, repetition and idempotence.
- `ResourceLists`: the name/resource list as a value. `Lookup` is the
  first-match search by name and `Sole` the single-resource lookup, with
  lemmas tying them together and to appending.
- `BufferArrays`: the class `BufferArray`, whose fields the methods update in
  place as the C++ class does. `Valid()` says the count describes the list;
  `WithinCapacity()` says the count does not exceed `maxNumRanges`.
  `CapacityScenario` is a client that fills an array of capacity two, is
  refused a third range, compacts, and then succeeds.

The protected `_AddResource`, `_SetMaxNumRanges` and `_SetRangeList` are
`AddResource`, `SetMaxNumRanges` and `SetRangeList`. The overload
`GetResource(name)` is `GetNamedResource`.

Decisions where the header leaves room:

- The model follows the declarations, doc comments and inline bodies of
  bufferArray.h; the bodies in bufferArray.cpp are not modelled.
  `TryAssignRange` is modelled from its doc comment and the dirty-bit comment (:134-135): it sets `needsReallocation` on
  success. It does not advance the version: the header gives version changes
  their own operation, `IncrementVersion`, and in the model only `Reallocate`
  calls it, since a rebuilt storage is what outdates the dispatch buffers
  the version is documented for (:61-62).
- The capacity bound `rangeCount <= maxNumRanges` is not an unconditional
  invariant. The header lets `_SetMaxNumRanges` lower the ceiling below the
  current count, and lets `_SetRangeList` install any list. The model proves
  that `TryAssignRange` and `RemoveUnusedRanges` preserve the bound. It also
  proves that `TryAssignRange` refuses every range while the count is at or
  over the ceiling.
- `RemoveUnusedRanges` changes neither the dirty bit nor the version.
- Clean-up keeps the surviving ranges in their original order. The header
  does not say this; it is the model's own choice, proved by
  `CompactedAppend`.
- `GetResource()` on an empty list yields no resource. On one resource it
  yields that resource. On more than one it yields the coding error.

## Model

| member | source | states |
|---|---|---|
| `RangeLists.Compacted` | pxr/imaging/lib/hd/bufferArray.h:120-122 | the list left after clean-up: no longer than before; a range is in it iff it was attached and is still alive; each live range keeps exactly as many entries, each dead range none |
| `RangeLists.CompactedAppend` | pxr/imaging/lib/hd/bufferArray.h:120-122 | clean-up goes entry by entry and keeps the order of the surviving ranges (it distributes over concatenation) |
| `RangeLists.CompactedTwice` | pxr/imaging/lib/hd/bufferArray.h:120-122 | two clean-ups, with ranges destroyed in between, keep exactly the ranges alive at both |
| `RangeLists.CompactedIdempotent` | pxr/imaging/lib/hd/bufferArray.h:120-122 | a second clean-up with no range destroyed in between changes nothing |
| `RangeLists.CompactedKeepsAll` | pxr/imaging/lib/hd/bufferArray.h:120-122 | clean-up leaves the list as it was iff every attached range is still alive |
| `RangeLists.AllAliveUnchanged` | pxr/imaging/lib/hd/bufferArray.h:120-122 | a list of live ranges is its own clean-up |
| `ResourceLists.FirstIndex` | pxr/imaging/lib/hd/bufferArray.h:79-83 | the position of the first entry under a name: that entry has the name and no earlier one does; past the end when none does |
| `ResourceLists.Lookup` | pxr/imaging/lib/hd/bufferArray.h:79-83 | the named lookup finds nothing iff no entry has the name, and otherwise returns the resource of the first entry with that name |
| `ResourceLists.Sole` | pxr/imaging/lib/hd/bufferArray.h:75-77 | the single-resource lookup is a coding error iff more than one resource is present, returns a resource iff exactly one is, and that resource is the list's only one |
| `ResourceLists.SoleAgreesWithLookup` | pxr/imaging/lib/hd/bufferArray.h:75-83 | when the single-resource lookup returns a resource, every named lookup that finds something finds that same resource |
| `ResourceLists.LookupAfterAppend` | pxr/imaging/lib/hd/bufferArray.h:138-144 | appending an entry leaves lookups of other names unchanged, and a lookup of its name returns it only when that name was absent before |
| `ResourceLists.FirstIndexAppend` | pxr/imaging/lib/hd/bufferArray.h:138-144 | appending an entry moves the first position of a name only when the name was absent before |
| `BufferArrays.BufferArray.constructor` | pxr/imaging/lib/hd/bufferArray.h:53-54 | a new array has the given role, no ranges, no resources, version 0 and a clear dirty bit, and is within capacity |
| `BufferArrays.BufferArray.GetRole` | pxr/imaging/lib/hd/bufferArray.h:58-59 | a read with no side effects returning the role; `role` is a constant, so it is the role given at construction for the array's whole life |
| `BufferArrays.BufferArray.GetVersion` | pxr/imaging/lib/hd/bufferArray.h:61-65 | a read with no side effects returning the current version |
| `BufferArrays.BufferArray.GetResource` | pxr/imaging/lib/hd/bufferArray.h:75-77 | the single-resource lookup `Sole` on the resource list: a coding error iff the array holds more than one resource |
| `BufferArrays.BufferArray.GetNamedResource` | pxr/imaging/lib/hd/bufferArray.h:79-83 | the first-match lookup `Lookup` on the resource list: nothing iff no resource was added under the name |
| `BufferArrays.BufferArray.GetResources` | pxr/imaging/lib/hd/bufferArray.h:85-86 | a read with no side effects returning all named resources in the order `AddResource` appended them |
| `BufferArrays.BufferArray.NeedsReallocation` | pxr/imaging/lib/hd/bufferArray.h:124-127 | a read with no side effects returning the dirty bit that `TryAssignRange` sets and `Reallocate` clears |
| `BufferArrays.BufferArray.IncrementVersion` | pxr/imaging/lib/hd/bufferArray.h:61-68 | the version goes up by exactly one and nothing else changes |
| `BufferArrays.BufferArray.TryAssignRange` | pxr/imaging/lib/hd/bufferArray.h:91-95 | succeeds iff the count is below the ceiling; on success the range is appended and the dirty bit is set; on failure the list and the dirty bit are unchanged; the capacity bound is preserved |
| `BufferArrays.BufferArray.GetRangeCount` | pxr/imaging/lib/hd/bufferArray.h:114-115 | the count is the number of entries in the range list |
| `BufferArrays.BufferArray.GetRange` | pxr/imaging/lib/hd/bufferArray.h:117-118 | yields the range at the index iff the index is in the list and that range is still alive; otherwise an empty (expired) reference. Its partners: after `RemoveUnusedRanges` or `GarbageCollect` every index below the count yields a live range; after a successful `TryAssignRange` the new last index yields the new range while it lives, and every earlier index yields what it did before |
| `BufferArrays.BufferArray.RemoveUnusedRanges` | pxr/imaging/lib/hd/bufferArray.h:120-122 | the list becomes its clean-up, so it holds exactly the live ranges that were attached; the count becomes their number; the capacity bound is preserved; nothing else changes |
| `BufferArrays.BufferArray.AddResource` | pxr/imaging/lib/hd/bufferArray.h:138-144 | a fresh resource is appended under the name and returned; a lookup of the name then finds it, unless an earlier resource under that name is still found first |
| `BufferArrays.BufferArray.SetMaxNumRanges` | pxr/imaging/lib/hd/bufferArray.h:146-148 | the ceiling becomes the given value; the array is within capacity iff the count does not exceed it |
| `BufferArrays.BufferArray.SetRangeList` | pxr/imaging/lib/hd/bufferArray.h:150-151 | the list becomes exactly the given ranges and the count their number |
| `BufferArrays.BufferArray.Reallocate` | pxr/imaging/lib/hd/bufferArray.h:100-106 | the array then holds exactly the given ranges, the dirty bit is cleared and the version has increased |
| `BufferArrays.BufferArray.GarbageCollect` | pxr/imaging/lib/hd/bufferArray.h:97-98 | dead ranges are dropped; the result is true iff no attached range was still alive, so the array became empty |

## Left out

- The mutex and the atomic range count (:162-163). Operations run one at a time, so concurrent assignment is not modelled.
- `GetBufferSpecs` (:89) and `GetMaxNumElements` (:109): their bodies live in the implementation file and depend on the buffer-spec types. bufferSpec.h and bufferArray.cpp are not part of this model.
- `DebugDump` (:112) and `operator<<` (:130-131): diagnostics only.
- The garbage-collection perf token (:166): it attributes cost to a counter and has no behavioural effect.
- The resource metadata passed to `_AddResource` (GL data type, component count, array size, offset, stride, :139-144): bufferResource.h is not part of this model, so a resource is an opaque object.
- The `HD_SAFE_MODE` check of `GetResource(name)` (:80-82): it inspects live GL buffer ids.
- Shared ownership (`enable_shared_from_this`, boost pointers): a range is a number and its liveness is a set of live ranges. The range's back-pointer to its owning array is not modelled.
- BufferArrays.BufferArray.IncrementVersion: does not model the wrap-around of the `size_t` version after 2^64 increments; the version is an unbounded natural number.
- BufferArrays.BufferArray.TryAssignRange: does not advance the version on success. The header documents the version as the trigger for rebuilding dispatch buffers (:61-62) and gives it its own operation, `IncrementVersion` (:67-68); a new range changes no storage until `Reallocate`, which does advance it.
- BufferArrays.BufferArray.Reallocate: states only the abstract contract of this pure virtual operation. The `curRangeOwner` argument and the copying of range data from it are not modelled.
- BufferArrays.BufferArray.GarbageCollect: states only the range clean-up and the emptiness result of this pure virtual operation. Compacting the GPU storage is not modelled. Because the model changes only the range list and its count, it also promises that garbage collection leaves the version and the dirty bit alone; a subclass that compacts its storage by reallocating would change both.
- BufferArrays.BufferArray.constructor: the initial values are set in bufferArray.cpp, which is not modelled. The model starts empty and clean, at version 0, with a ceiling of one range until `_SetMaxNumRanges` is called.
