/** The list of ranges attached to a buffer array, seen as a value.
    A range is identified by a number; the array holds only weak references
    to its ranges, so whether a range still exists is given separately, as
    the set of ranges that are still alive. */
module RangeLists {

  type RangeId = nat

  /** The entries of `list` whose range is still alive, in their original
      order; each surviving range keeps as many entries as it had. */
  function Compacted(list: seq<RangeId>, alive: set<RangeId>): (r: seq<RangeId>)
    ensures |r| <= |list|
    ensures forall x :: x in r <==> x in list && x in alive
    ensures forall x :: multiset(r)[x] == if x in alive then multiset(list)[x] else 0
  {
    if list == [] then []
    else
      var rest := Compacted(list[1..], alive);
      assert list == [list[0]] + list[1..];
      if list[0] in alive then [list[0]] + rest else rest
  }

  /** Compaction works entry by entry: compacting a concatenation compacts
      each part and keeps their order. */
  lemma {:induction false} CompactedAppend(a: seq<RangeId>, b: seq<RangeId>, alive: set<RangeId>)
    ensures Compacted(a + b, alive) == Compacted(a, alive) + Compacted(b, alive)
  {
    if a == [] {
      assert a + b == b;
    } else {
      assert (a + b)[1..] == a[1..] + b;
      CompactedAppend(a[1..], b, alive);
    }
  }

  /** Two compactions in a row, with fewer ranges alive at the second, keep
      exactly the ranges alive at both. */
  lemma {:induction false} CompactedTwice(list: seq<RangeId>, first: set<RangeId>, second: set<RangeId>)
    ensures Compacted(Compacted(list, first), second) == Compacted(list, first * second)
  {
    if list != [] {
      CompactedTwice(list[1..], first, second);
      if list[0] in first {
        var rest := Compacted(list[1..], first);
        assert ([list[0]] + rest)[1..] == rest;
      }
    }
  }

  /** Compacting again with no range destroyed in between changes nothing. */
  lemma CompactedIdempotent(list: seq<RangeId>, alive: set<RangeId>)
    ensures Compacted(Compacted(list, alive), alive) == Compacted(list, alive)
  {
    CompactedTwice(list, alive, alive);
    assert alive * alive == alive;
  }

  /** Compaction removes something exactly when some entry is dead. */
  lemma CompactedKeepsAll(list: seq<RangeId>, alive: set<RangeId>)
    ensures Compacted(list, alive) == list <==> forall i :: 0 <= i < |list| ==> list[i] in alive
  {
    if forall i :: 0 <= i < |list| ==> list[i] in alive {
      AllAliveUnchanged(list, alive);
    }
  }

  lemma {:induction false} AllAliveUnchanged(list: seq<RangeId>, alive: set<RangeId>)
    requires forall i :: 0 <= i < |list| ==> list[i] in alive
    ensures Compacted(list, alive) == list
  {
    if list != [] {
      assert forall i :: 0 <= i < |list| - 1 ==> list[1..][i] == list[i + 1];
      AllAliveUnchanged(list[1..], alive);
      assert list == [list[0]] + list[1..];
    }
  }
}
