/** A buffer array: a bundle of named GPU resources shared by many ranges
    (per-prim slices of attribute data). It tracks which ranges are attached,
    how many it may hold, whether its storage must be rebuilt, and a version
    that changes when the storage does. Operations run one at a time here;
    the mutex and atomic counter that make assignment thread-safe are not
    modelled. */
module BufferArrays {

  import opened Wrappers
  import opened RangeLists
  import opened ResourceLists

  /** The semantic category of the data held (vertex, uniform, ...). */
  type Role = string

  class BufferArray {
    /** Fixed at construction. */
    const role: Role

    /** Weak references to the attached ranges, in assignment order. */
    var ranges: seq<RangeId>
    /** How many ranges are in the list. */
    var rangeCount: nat
    /** The ceiling on attached ranges that assignment enforces. */
    var maxNumRanges: nat
    var version: nat
    /** Set when the attached ranges change; cleared by reallocation. */
    var needsReallocation: bool
    var resources: NamedList

    /** The count always describes the list. */
    ghost predicate Valid()
      reads this
    {
      rangeCount == |ranges|
    }

    /** No more ranges are attached than the capacity allows. */
    predicate WithinCapacity()
      reads this
    {
      rangeCount <= maxNumRanges
    }

    /** An empty, clean array at version 0 that takes one range until its
        capacity is set. */
    constructor (role: Role)
      ensures Valid() && WithinCapacity()
      ensures this.role == role
      ensures ranges == [] && maxNumRanges == 1 && version == 0
      ensures !needsReallocation && resources == []
    {
      this.role := role;
      ranges, rangeCount, maxNumRanges := [], 0, 1;
      version, needsReallocation, resources := 0, false, [];
    }

    /** The role given at construction; `role` is a constant, so every
        call on the same array returns the same role. */
    function GetRole(): (r: Role)
      ensures r == role
    {
      role
    }

    /** Reads the version without changing anything. */
    function GetVersion(): (v: nat)
      reads this
      ensures v == version
    {
      version
    }

    /** Advances the version, so that state derived from this array can tell
        it is outdated. */
    method IncrementVersion()
      modifies this`version
      ensures version == old(version) + 1
      ensures version > old(version)
    {
      version := version + 1;
    }

    /** The resource of an array that holds a single one; a coding error
        when it holds several, nothing when it holds none. */
    function GetResource(): (r: Result<Option<BufferResource>, LookupError>)
      reads this
      ensures r == Sole(resources)
      ensures r.Failure? <==> |resources| > 1
    {
      Sole(resources)
    }

    /** The first resource added under `name`, if any. */
    function GetNamedResource(name: Name): (r: Option<BufferResource>)
      reads this
      ensures r == Lookup(resources, name)
      ensures r.None? <==> forall j :: 0 <= j < |resources| ==> resources[j].0 != name
    {
      Lookup(resources, name)
    }

    /** All resources with their names, in the order they were added. */
    function GetResources(): (list: NamedList)
      reads this
      ensures list == resources
    {
      resources
    }

    /** Attaches `range` when fewer than `maxNumRanges` ranges are attached;
        otherwise changes nothing. An attached range is not yet in the
        storage, so the array then needs reallocation. */
    method TryAssignRange(range: RangeId) returns (ok: bool)
      requires Valid()
      modifies this`ranges, this`rangeCount, this`needsReallocation
      ensures Valid()
      ensures ok <==> old(rangeCount) < maxNumRanges
      ensures ok ==> ranges == old(ranges) + [range] && needsReallocation
      ensures !ok ==> ranges == old(ranges) && needsReallocation == old(needsReallocation)
      ensures old(WithinCapacity()) ==> WithinCapacity()
      ensures ok ==> forall alive: set<RangeId> ::
                GetRange(old(rangeCount), alive) == if range in alive then Some(range) else None
      ensures forall i, alive: set<RangeId> :: 0 <= i < old(rangeCount) ==>
                GetRange(i, alive) == old(GetRange(i, alive))
    {
      ok := rangeCount < maxNumRanges;
      if ok {
        ranges := ranges + [range];
        rangeCount := rangeCount + 1;
        needsReallocation := true;
      }
    }

    /** How many ranges are attached. */
    function GetRangeCount(): (n: nat)
      reads this
      requires Valid()
      ensures n == |ranges|
    {
      rangeCount
    }

    /** The range attached at `idx`, or nothing when `idx` is past the end or
        that range no longer exists. */
    function GetRange(idx: nat, alive: set<RangeId>): (r: Option<RangeId>)
      reads this
      ensures r.Some? <==> idx < |ranges| && ranges[idx] in alive
      ensures r.Some? ==> r.value == ranges[idx]
    {
      if idx < |ranges| && ranges[idx] in alive then Some(ranges[idx]) else None
    }

    /** Drops the entries of ranges that no longer exist. */
    method RemoveUnusedRanges(alive: set<RangeId>)
      modifies this`ranges, this`rangeCount
      ensures Valid()
      ensures ranges == Compacted(old(ranges), alive)
      ensures forall x :: x in ranges <==> x in old(ranges) && x in alive
      ensures old(Valid() && WithinCapacity()) ==> WithinCapacity()
      ensures forall i :: 0 <= i < rangeCount ==> GetRange(i, alive).Some?
    {
      ranges := Compacted(ranges, alive);
      rangeCount := |ranges|;
    }

    /** Reads the dirty bit without changing anything. */
    function NeedsReallocation(): (dirty: bool)
      reads this
      ensures dirty == needsReallocation
    {
      needsReallocation
    }

    /** Appends a new resource under `name` and returns it. An earlier
        resource with the same name is kept and still found first. */
    method AddResource(name: Name) returns (res: BufferResource)
      modifies this`resources
      ensures fresh(res)
      ensures resources == old(resources) + [(name, res)]
      ensures GetNamedResource(name) ==
                if old(GetNamedResource(name)).None? then Some(res) else old(GetNamedResource(name))
    {
      res := new BufferResource();
      LookupAfterAppend(resources, name, res, name);
      resources := resources + [(name, res)];
    }

    /** Limits the number of ranges that may be attached. Lowering it below
        the current count does not detach anything. */
    method SetMaxNumRanges(max: nat)
      modifies this`maxNumRanges
      ensures maxNumRanges == max
      ensures WithinCapacity() <==> rangeCount <= max
    {
      maxNumRanges := max;
    }

    /** Replaces the attached ranges by `list`. */
    method SetRangeList(list: seq<RangeId>)
      modifies this`ranges, this`rangeCount
      ensures Valid()
      ensures ranges == list && GetRangeCount() == |list|
    {
      ranges := list;
      rangeCount := |list|;
    }

    /** Rebuilds the storage so that the array holds exactly `list`; the
        storage then matches the ranges, and the version moves on. Copying
        the ranges' data from their previous owner is not modelled. */
    method Reallocate(list: seq<RangeId>)
      modifies this`ranges, this`rangeCount, this`needsReallocation, this`version
      ensures Valid()
      ensures ranges == list && !needsReallocation
      ensures version > old(version)
    {
      SetRangeList(list);
      needsReallocation := false;
      IncrementVersion();
    }

    /** Drops the ranges that no longer exist and reports whether none is
        left. Compacting the storage itself is not modelled. */
    method GarbageCollect(alive: set<RangeId>) returns (empty: bool)
      modifies this`ranges, this`rangeCount
      ensures Valid()
      ensures ranges == Compacted(old(ranges), alive)
      ensures empty <==> forall x :: x in old(ranges) ==> x !in alive
      ensures forall i :: 0 <= i < rangeCount ==> GetRange(i, alive).Some?
    {
      RemoveUnusedRanges(alive);
      empty := rangeCount == 0;
    }
  }

  /** Two ranges fill an array of capacity two; a third is refused until
      one of the first two is destroyed and the list is compacted. */
  method CapacityScenario()
  {
    var a := new BufferArray("vertex");
    a.SetMaxNumRanges(2);
    var ok1 := a.TryAssignRange(1);
    var ok2 := a.TryAssignRange(2);
    var ok3 := a.TryAssignRange(3);
    assert ok1 && ok2 && !ok3;
    assert a.GetRangeCount() == 2 && a.NeedsReallocation();
    a.RemoveUnusedRanges({2, 3});
    assert a.ranges == [2];
    ok3 := a.TryAssignRange(3);
    assert ok3 && a.ranges == [2, 3];
    a.Reallocate(a.ranges);
    assert !a.NeedsReallocation() && a.GetVersion() > 0;
  }
}
