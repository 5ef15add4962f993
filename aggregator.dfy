/** `max_bytes`: sort the events in place, then sweep them once with a FIFO
    window of the active events, a running window sum and a running maximum. */
module Aggregator {
  import opened Events
  import opened WindowSpec
  import opened Sorting

  /** The sweep over the events once they are sorted by timestamp. `window` is the
      deque: eviction pops from its front and the new event is appended at its
      back. The ghost index `lo` records where the window starts, so the window is
      always the contiguous run `events[lo..i]` ending at the current event. */
  method SweepSorted(events: seq<Event>) returns (maxSum: int)
    requires SortedByTime(events)
    ensures maxSum == PrefixMax(events)
    ensures maxSum == MaxWindow(events)
  {
    var window: seq<Event> := [];
    ghost var lo: nat := 0;
    var currentSum := 0;
    maxSum := 0;
    for i := 0 to |events|
      invariant lo <= i && window == events[lo..i]
      invariant currentSum == Total(window)
      invariant Evicted(events, lo, i)
      invariant maxSum == PrefixMax(events[..i])
    {
      var event := events[i];
      var t := event.timestamp;
      var b := event.bytes;

      ghost var before := window;
      window, currentSum := Evict(window, currentSum, t);
      SweepStep(events, lo, i, before, window);
      lo := i - |window|;

      window := window + [event];
      currentSum := currentSum + b;
      maxSum := Max(maxSum, currentSum);
    }
    assert events[..|events|] == events;
    SweepIsMaxWindow(events);
  }

  /** The events before `lo` have left the window of the last event processed,
      `s[i - 1]`: their timestamps are below its timestamp minus `Reach`. */
  ghost predicate Evicted(s: seq<Event>, lo: nat, i: nat)
    requires lo <= i <= |s|
  {
    0 < i ==> forall j :: 0 <= j < lo ==> s[j].timestamp < s[i - 1].timestamp - Reach
  }

  /** The events from `lo` on, up to the last event processed, `s[i - 1]`, all lie
      in its window. */
  ghost predicate Active(s: seq<Event>, lo: nat, i: nat)
    requires lo <= i <= |s|
  {
    0 < i ==> forall j :: lo <= j < i ==> InWindow(s[j], s[i - 1].timestamp)
  }

  /** The eviction loop of one step: pops from the front of the deque every event
      whose timestamp is below `t - Reach`, subtracting its bytes from the running
      sum, and stops at the first event that is still inside the window ending at
      `t` (or when the deque is empty). */
  method Evict(window: seq<Event>, currentSum: int, t: int) returns (kept: seq<Event>, keptSum: int)
    requires currentSum == Total(window)
    ensures |kept| <= |window| && kept == window[|window| - |kept|..]
    ensures keptSum == Total(kept)
    ensures forall j :: 0 <= j < |window| - |kept| ==> window[j].timestamp < t - Reach
    ensures kept == [] || t - Reach <= kept[0].timestamp
  {
    kept, keptSum := window, currentSum;
    while kept != [] && kept[0].timestamp < t - Reach
      invariant |kept| <= |window| && kept == window[|window| - |kept|..]
      invariant keptSum == Total(kept)
      invariant forall j :: 0 <= j < |window| - |kept| ==> window[j].timestamp < t - Reach
    {
      var removed := kept[0];
      TotalFront(kept);
      kept := kept[1..];
      keptSum := keptSum - removed.bytes;
    }
  }

  /** One step of the sweep, at the event `s[i]`: the deque held the run `s[lo..i]`,
      eviction dropped its first events and kept `kept`. Then the new deque
      `kept + [s[i]]` is the contiguous run that ends at `s[i]` and holds exactly the
      events seen so far that lie in the window of `s[i]`; the running sum is that
      window's total; and the running maximum is updated as the sweep's
      specification says. */
  lemma SweepStep(s: seq<Event>, lo: nat, i: nat, before: seq<Event>, kept: seq<Event>)
    requires SortedByTime(s) && lo <= i < |s|
    requires Evicted(s, lo, i) && before == s[lo..i]
    requires |kept| <= |before| && kept == before[|before| - |kept|..]
    requires forall j :: 0 <= j < |before| - |kept| ==> before[j].timestamp < s[i].timestamp - Reach
    requires kept == [] || s[i].timestamp - Reach <= kept[0].timestamp
    ensures kept + [s[i]] == s[i - |kept|..i + 1]
    ensures Evicted(s, i - |kept|, i + 1)
    ensures Active(s, i - |kept|, i + 1)
    ensures PrefixMax(s[..i + 1]) == Max(PrefixMax(s[..i]), Total(kept + [s[i]]))
  {
    EvictedStep(s, lo, i, before, kept);
    KeptInWindow(s, i - |kept|, i);
    RunIsPrefixWindow(s, i - |kept|, i);
    PrefixMaxStep(s, i);
  }

  /** Once eviction stops at `lo`, the run `s[lo..i + 1]` holds exactly the events
      among `s[..i + 1]` that lie in the window of `s[i]`. */
  lemma RunIsPrefixWindow(s: seq<Event>, lo: nat, i: nat)
    requires SortedByTime(s) && lo <= i < |s|
    requires Evicted(s, lo, i + 1)
    requires lo == i || s[i].timestamp - Reach <= s[lo].timestamp
    ensures WindowBytes(s[..i + 1], s[i].timestamp) == Total(s[lo..i + 1])
  {
    var t := s[i].timestamp;
    var u := s[..i + 1];
    KeptInWindow(s, lo, i);
    forall j | 0 <= j < lo
      ensures !InWindow(u[j], t)
    {
      assert u[j] == s[j];
    }
    forall j | lo <= j < |u|
      ensures InWindow(u[j], t)
    {
      assert u[j] == s[j];
    }
    WindowIsRun(u, lo, |u|, t);
    assert u[lo..|u|] == s[lo..i + 1];
  }

  /** Eviction leaves behind only events below the window of `s[i]`, and what it
      keeps is the tail `s[i - |kept|..i]` of the run the deque held. */
  lemma EvictedStep(s: seq<Event>, lo: nat, i: nat, before: seq<Event>, kept: seq<Event>)
    requires SortedByTime(s) && lo <= i < |s|
    requires Evicted(s, lo, i) && before == s[lo..i]
    requires |kept| <= |before| && kept == before[|before| - |kept|..]
    requires forall j :: 0 <= j < |before| - |kept| ==> before[j].timestamp < s[i].timestamp - Reach
    requires kept == [] || s[i].timestamp - Reach <= kept[0].timestamp
    ensures kept == s[i - |kept|..i]
    ensures kept + [s[i]] == s[i - |kept|..i + 1]
    ensures kept != [] ==> kept[0] == s[i - |kept|]
    ensures Evicted(s, i - |kept|, i + 1)
  {
    var lo' := i - |kept|;
    forall j | 0 <= j < lo'
      ensures s[j].timestamp < s[i].timestamp - Reach
    {
      if j >= lo {
        assert before[j - lo] == s[j];
      } else {
        assert s[i - 1].timestamp <= s[i].timestamp;
      }
    }
  }

  /** In a sorted run, every event from the first one kept up to `s[i]` lies in
      the window of `s[i]`. */
  lemma KeptInWindow(s: seq<Event>, lo: nat, i: nat)
    requires SortedByTime(s) && lo <= i < |s|
    requires lo == i || s[i].timestamp - Reach <= s[lo].timestamp
    ensures forall j :: lo <= j <= i ==> InWindow(s[j], s[i].timestamp)
  {
  }

  /** `max_bytes(events)`: sorts the caller's array in place (the side effect the
      caller observes) and returns the largest window total of the original events. */
  method MaxBytes(events: array<Event>) returns (maxSum: int)
    modifies events
    ensures SortedByTime(events[..])
    ensures multiset(events[..]) == old(multiset(events[..]))
    ensures maxSum == MaxWindow(old(events[..]))
  {
    SortByTimestamp(events);
    maxSum := SweepSorted(events[..]);
    MaxWindowPermutation(events[..], old(events[..]));
  }

  /** The module's demonstration calls `max_bytes` twice on the same list; the
      second call sees the list the first one sorted and returns the same value. */
  method MaxBytesTwice(events: array<Event>) returns (first: int, second: int)
    modifies events
    ensures first == second == MaxWindow(old(events[..]))
    ensures SortedByTime(events[..])
    ensures multiset(events[..]) == old(multiset(events[..]))
  {
    first := MaxBytes(events);
    ghost var sorted := events[..];
    second := MaxBytes(events);
    MaxWindowPermutation(sorted, old(events[..]));
  }
}
