/** Properties of the answer `max_bytes` returns, stated on the reference answer
    `MaxWindow` (which `Aggregator.MaxBytes` is proved to return). */
module Properties {
  import opened Events
  import opened WindowSpec

  /** The answer is at least every single event's bytes (a window of one event is
      always possible) and at most the bytes of all events together. */
  lemma MaxWindowBounds(s: seq<Event>)
    ensures forall e :: e in s ==> e.bytes <= MaxWindow(s)
    ensures MaxWindow(s) <= Total(s)
  {
    forall e | e in s
      ensures e.bytes <= MaxWindow(s)
    {
      MemberBytesInWindow(s, e, e.timestamp);
    }
    if s != [] {
      var me := MaxWindow(s);
      var e :| e in s && WindowBytes(s, e.timestamp) == me;
      WindowBytesBelowTotal(s, e.timestamp);
    }
  }

  /** Boundary law: two events are summed together exactly when their timestamps
      differ by at most `Reach` (4); at a difference of 5 or more the answer is the
      larger of the two alone. */
  lemma PairLaw(x: Event, y: Event)
    ensures MaxWindow([x, y]) ==
      if -Reach <= y.timestamp - x.timestamp <= Reach then x.bytes + y.bytes
      else Max(x.bytes, y.bytes)
  {
    var s := [x, y];
    assert s[..1] == [x] && [x][..0] == [];
    forall t
      ensures WindowBytes(s, t) == Contribution(x, t) + Contribution(y, t)
    {
      assert WindowBytes([x], t) == Contribution(x, t);
    }
    assert MaxWindow(s) == Max(Max(0, WindowBytes(s, x.timestamp)), WindowBytes(s, y.timestamp));
  }

  /** Events sharing one timestamp are always counted together: when all events
      have the same timestamp the answer is the total of their bytes. */
  lemma SameTimestamp(s: seq<Event>)
    requires s != [] && forall j :: 0 <= j < |s| ==> s[j].timestamp == s[0].timestamp
    ensures MaxWindow(s) == Total(s)
  {
    WindowBytesAllIn(s, s[0].timestamp);
    MaxWindowBounds(s);
  }

  /** Every contiguous run of sorted events whose timestamps span less than 5 holds
      at most the answer. */
  lemma RunBelowMaxWindow(s: seq<Event>, i: nat, j: nat)
    requires SortedByTime(s) && i < j <= |s|
    requires s[j - 1].timestamp - s[i].timestamp <= Reach
    ensures Total(s[i..j]) <= MaxWindow(s)
  {
    var t := s[j - 1].timestamp;
    WindowBytesAllIn(s[i..j], t);
    assert s == s[..i] + s[i..j] + s[j..];
    WindowBytesConcat(s[..i] + s[i..j], s[j..], t);
    WindowBytesConcat(s[..i], s[i..j], t);
    assert s[j - 1] in s;
  }

  /** For sorted, non-empty events the answer is the total of one such run: the
      maximum over runs of span less than 5 is attained. */
  lemma MaxWindowIsRun(s: seq<Event>)
    requires SortedByTime(s) && s != []
    ensures exists i, j :: 0 <= i < j <= |s| && s[j - 1].timestamp - s[i].timestamp <= Reach
                           && Total(s[i..j]) == MaxWindow(s)
  {
    var me := MaxWindow(s);
    var e :| e in s && WindowBytes(s, e.timestamp) == me;
    var k :| 0 <= k < |s| && s[k] == e;
    var hi := LastAtTimestamp(s, k);
    var lo := FirstInWindow(s, k);
    WindowIsRun(s, lo, hi + 1, e.timestamp);
  }

  /** The last index of a sorted sequence that holds the timestamp of `s[k]`. */
  lemma LastAtTimestamp(s: seq<Event>, k: nat) returns (hi: nat)
    requires SortedByTime(s) && k < |s|
    ensures k <= hi < |s| && s[hi].timestamp == s[k].timestamp
    ensures forall j :: hi < j < |s| ==> s[k].timestamp < s[j].timestamp
  {
    hi := k;
    while hi + 1 < |s| && s[hi + 1].timestamp == s[k].timestamp
      invariant k <= hi < |s| && s[hi].timestamp == s[k].timestamp
    {
      hi := hi + 1;
    }
  }

  /** The first index of a sorted sequence whose event lies in the window that ends
      at the timestamp of `s[k]`. */
  lemma FirstInWindow(s: seq<Event>, k: nat) returns (lo: nat)
    requires SortedByTime(s) && k < |s|
    ensures lo <= k && s[k].timestamp - Reach <= s[lo].timestamp
    ensures forall j :: 0 <= j < lo ==> s[j].timestamp < s[k].timestamp - Reach
  {
    lo := k;
    while lo > 0 && s[k].timestamp - Reach <= s[lo - 1].timestamp
      invariant lo <= k && s[k].timestamp - Reach <= s[lo].timestamp
    {
      lo := lo - 1;
    }
  }
}
