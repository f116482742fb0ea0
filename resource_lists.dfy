/** The ordered list of named GPU resources of a buffer array, seen as a
    value. A resource is opaque here: only its identity matters. */
module ResourceLists {

  import opened Wrappers

  type Name = string

  /** A GPU resource. Its data type, component count, array size, offset and
      stride are not part of this model; a new resource is a new object. */
  class BufferResource {
    constructor () {}
  }

  /** Name and resource pairs, in the order they were added. */
  type NamedList = seq<(Name, BufferResource)>

  /** The coding error raised when one resource is asked for and there are several. */
  datatype LookupError = MultipleResources

  /** The position of the first entry registered under `name`, or `|list|`
      when no entry has that name. */
  function FirstIndex(list: NamedList, name: Name): (i: nat)
    ensures i <= |list|
    ensures i < |list| ==> list[i].0 == name
    ensures forall j :: 0 <= j < i ==> list[j].0 != name
  {
    if list == [] then 0
    else if list[0].0 == name then 0
    else 1 + FirstIndex(list[1..], name)
  }

  /** The resource found by a search for `name`: the first one added under
      that name, or nothing when the name is absent. */
  function Lookup(list: NamedList, name: Name): (r: Option<BufferResource>)
    ensures r.None? <==> forall j :: 0 <= j < |list| ==> list[j].0 != name
    ensures r.Some? ==> exists j :: 0 <= j < |list| && list[j] == (name, r.value)
                                    && forall k :: 0 <= k < j ==> list[k].0 != name
  {
    var i := FirstIndex(list, name);
    if i < |list| then Some(list[i].1) else None
  }

  /** The single resource of the list: nothing when the list is empty, and
      a coding error when it holds more than one resource. */
  function Sole(list: NamedList): (r: Result<Option<BufferResource>, LookupError>)
    ensures r.Failure? <==> |list| > 1
    ensures r.Success? && r.value.Some? <==> |list| == 1
    ensures r.Success? && r.value.Some? ==> r.value.value == list[0].1
  {
    if |list| > 1 then Failure(MultipleResources)
    else if list == [] then Success(None)
    else Success(Some(list[0].1))
  }

  /** When the sole-resource lookup succeeds with a resource, every search
      by name either finds that same resource or finds nothing. */
  lemma SoleAgreesWithLookup(list: NamedList, name: Name)
    requires Sole(list).Success? && Sole(list).value.Some?
    ensures Lookup(list, list[0].0) == Sole(list).value
    ensures Lookup(list, name).Some? ==> Lookup(list, name) == Sole(list).value
  {
  }

  /** Appending an entry leaves every search for another name as it was, and
      a search for its own name finds it only when that name was absent:
      an earlier entry under the same name shadows the new one. */
  lemma {:induction false} LookupAfterAppend(list: NamedList, added: Name, res: BufferResource, name: Name)
    ensures Lookup(list + [(added, res)], name) ==
              if name == added && Lookup(list, name).None? then Some(res) else Lookup(list, name)
  {
    FirstIndexAppend(list, (added, res), name);
  }

  lemma {:induction false} FirstIndexAppend(list: NamedList, entry: (Name, BufferResource), name: Name)
    ensures FirstIndex(list + [entry], name) ==
              if FirstIndex(list, name) < |list| then FirstIndex(list, name)
              else if entry.0 == name then |list|
              else |list| + 1
  {
    if list != [] {
      assert (list + [entry])[1..] == list[1..] + [entry];
      FirstIndexAppend(list[1..], entry, name);
    }
  }
}
