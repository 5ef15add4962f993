/** The in-place sort by timestamp that `max_bytes` applies to the caller's list. */
module Sorting {
  import opened Events

  /** Insertion sort by timestamp, standing in for the built-in list sort:
      afterwards the array is ordered by non-decreasing timestamp and holds
      exactly the events it held before. */
  method SortByTimestamp(a: array<Event>)
    modifies a
    ensures SortedByTime(a[..])
    ensures multiset(a[..]) == old(multiset(a[..]))
  {
    for i := 0 to a.Length
      invariant SortedByTime(a[..i])
      invariant multiset(a[..]) == old(multiset(a[..]))
    {
      InsertAt(a, i);
    }
    assert a[..a.Length] == a[..];
  }

  /** One insertion step: moves `a[i]` left past every event with a later
      timestamp, so that the sorted prefix grows by one; the rest of the array
      is left as it was. */
  method InsertAt(a: array<Event>, i: nat)
    requires i < a.Length && SortedByTime(a[..i])
    modifies a
    ensures SortedByTime(a[..i + 1])
    ensures multiset(a[..]) == old(multiset(a[..]))
    ensures a[i + 1..] == old(a[i + 1..])
  {
    var j := i;
    while j > 0 && a[j - 1].timestamp > a[j].timestamp
      invariant 0 <= j <= i
      invariant forall p, q :: 0 <= p < q <= i && p != j && q != j ==> a[p].timestamp <= a[q].timestamp
      invariant forall q :: j < q <= i ==> a[j].timestamp < a[q].timestamp
      invariant multiset(a[..]) == old(multiset(a[..]))
      invariant a[i + 1..] == old(a[i + 1..])
      decreases j
    {
      Swap(a, j - 1, j);
      j := j - 1;
    }
  }

  /** Exchanges two events of the array, leaving the others in place. */
  method Swap(a: array<Event>, i: nat, j: nat)
    requires i < j < a.Length
    modifies a
    ensures a[i] == old(a[j]) && a[j] == old(a[i])
    ensures forall k :: 0 <= k < a.Length && k != i && k != j ==> a[k] == old(a[k])
    ensures multiset(a[..]) == old(multiset(a[..]))
  {
    a[i], a[j] := a[j], a[i];
  }
}
