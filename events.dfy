/** Events and the byte totals of the windows they fall into. */
module Events {

  /** One `{timestamp, bytes}` record of the input list. */
  datatype Event = Event(timestamp: int, bytes: nat)

  /** An event stays in the window of a later event at time `t` as long as its
      timestamp is not below `t - Reach`: the window is `[t - Reach, t]`, a span
      strictly less than 5. */
  const Reach: int := 4

  function Max(x: int, y: int): int
  {
    if x < y then y else x
  }

  /** Non-decreasing by timestamp. */
  predicate SortedByTime(s: seq<Event>)
  {
    forall i, j :: 0 <= i < j < |s| ==> s[i].timestamp <= s[j].timestamp
  }

  /** Sum of the bytes of all events of `s`. */
  function Total(s: seq<Event>): nat
  {
    if s == [] then 0 else Total(s[..|s| - 1]) + s[|s| - 1].bytes
  }

  /** Whether `e` belongs to the window that ends at time `t`. */
  predicate InWindow(e: Event, t: int)
  {
    t - Reach <= e.timestamp <= t
  }

  /** Sum of the bytes of the events of `s` that lie in the window ending at `t`. */
  function WindowBytes(s: seq<Event>, t: int): nat
  {
    if s == [] then 0
    else WindowBytes(s[..|s| - 1], t) + Contribution(s[|s| - 1], t)
  }

  /** Popping the front of a window removes exactly its bytes from the total. */
  lemma {:induction false} TotalFront(s: seq<Event>)
    requires s != []
    ensures Total(s) == s[0].bytes + Total(s[1..])
  {
    if |s| > 1 {
      TotalFront(s[..|s| - 1]);
      assert s[..|s| - 1][1..] == s[1..][..|s| - 2];
    }
  }

  /** Window totals add up over concatenation. */
  lemma {:induction false} WindowBytesConcat(a: seq<Event>, b: seq<Event>, t: int)
    ensures WindowBytes(a + b, t) == WindowBytes(a, t) + WindowBytes(b, t)
  {
    if b == [] {
      assert a + b == a;
    } else {
      WindowBytesConcat(a, b[..|b| - 1], t);
      assert (a + b)[..|a + b| - 1] == a + b[..|b| - 1];
    }
  }

  /** Window totals can also be taken from the front. */
  lemma WindowBytesCons(x: Event, s: seq<Event>, t: int)
    ensures WindowBytes([x] + s, t) == Contribution(x, t) + WindowBytes(s, t)
  {
    WindowBytesConcat([x], s, t);
    assert [x][..0] == [];
  }

  /** A prefix never holds more bytes in a window than the whole sequence. */
  lemma WindowBytesPrefix(s: seq<Event>, k: nat, t: int)
    requires k <= |s|
    ensures WindowBytes(s[..k], t) <= WindowBytes(s, t)
  {
    WindowBytesConcat(s[..k], s[k..], t);
    assert s[..k] + s[k..] == s;
  }

  /** An event of `s` that lies in the window contributes all its bytes. */
  lemma {:induction false} MemberBytesInWindow(s: seq<Event>, e: Event, t: int)
    requires e in s && InWindow(e, t)
    ensures e.bytes <= WindowBytes(s, t)
  {
    if s[|s| - 1] != e {
      assert e in s[..|s| - 1] by {
        var k :| 0 <= k < |s| && s[k] == e;
        assert s[..|s| - 1][k] == e;
      }
      MemberBytesInWindow(s[..|s| - 1], e, t);
    }
  }

  /** A window never holds more than all the bytes. */
  lemma {:induction false} WindowBytesBelowTotal(s: seq<Event>, t: int)
    ensures WindowBytes(s, t) <= Total(s)
  {
    if s != [] {
      WindowBytesBelowTotal(s[..|s| - 1], t);
    }
  }

  /** When every event lies in the window, the window holds all the bytes. */
  lemma {:induction false} WindowBytesAllIn(s: seq<Event>, t: int)
    requires forall j :: 0 <= j < |s| ==> InWindow(s[j], t)
    ensures WindowBytes(s, t) == Total(s)
  {
    if s != [] {
      WindowBytesAllIn(s[..|s| - 1], t);
    }
  }

  /** When no event lies in the window, it is empty. */
  lemma {:induction false} WindowBytesNoneIn(s: seq<Event>, t: int)
    requires forall j :: 0 <= j < |s| ==> !InWindow(s[j], t)
    ensures WindowBytes(s, t) == 0
  {
    if s != [] {
      WindowBytesNoneIn(s[..|s| - 1], t);
    }
  }

  /** When the events inside the window are exactly the run `s[lo..hi]`, the window
      holds the bytes of that run. */
  lemma WindowIsRun(s: seq<Event>, lo: nat, hi: nat, t: int)
    requires lo <= hi <= |s|
    requires forall j :: 0 <= j < lo ==> !InWindow(s[j], t)
    requires forall j :: lo <= j < hi ==> InWindow(s[j], t)
    requires forall j :: hi <= j < |s| ==> !InWindow(s[j], t)
    ensures WindowBytes(s, t) == Total(s[lo..hi])
  {
    assert s == s[..lo] + s[lo..hi] + s[hi..];
    WindowBytesConcat(s[..lo] + s[lo..hi], s[hi..], t);
    WindowBytesConcat(s[..lo], s[lo..hi], t);
    WindowBytesNoneIn(s[..lo], t);
    WindowBytesAllIn(s[lo..hi], t);
    WindowBytesNoneIn(s[hi..], t);
  }

  /** The contribution of one event to the window ending at `t`. */
  function Contribution(e: Event, t: int): nat
  {
    if InWindow(e, t) then e.bytes else 0
  }

  /** Taking the event at index `k` out of `p` removes exactly its contribution. */
  lemma WindowBytesRemove(p: seq<Event>, k: nat, t: int)
    requires k < |p|
    ensures WindowBytes(p, t) == WindowBytes(p[..k] + p[k + 1..], t) + Contribution(p[k], t)
  {
    assert p == p[..k] + [p[k]] + p[k + 1..];
    WindowBytesConcat(p[..k] + [p[k]], p[k + 1..], t);
    WindowBytesConcat(p[..k], [p[k]], t);
    WindowBytesConcat(p[..k], p[k + 1..], t);
    assert [p[k]][..0] == [];
  }

  /** Taking one occurrence of the last event of `s` out of `p` keeps the multisets equal. */
  lemma MultisetRemove(s: seq<Event>, p: seq<Event>, k: nat)
    requires s != [] && k < |p| && p[k] == s[|s| - 1]
    requires multiset(s) == multiset(p)
    ensures multiset(s[..|s| - 1]) == multiset(p[..k] + p[k + 1..])
  {
    var x := p[k];
    assert s == s[..|s| - 1] + [x];
    assert p == p[..k] + [x] + p[k + 1..];
    calc {
      multiset(p[..k] + p[k + 1..]);
      multiset(p[..k]) + multiset(p[k + 1..]);
      multiset(p[..k] + [x] + p[k + 1..]) - multiset{x};
      multiset(s[..|s| - 1] + [x]) - multiset{x};
      multiset(s[..|s| - 1]);
    }
  }

  /** The window total depends only on the multiset of events, not on their order. */
  lemma {:induction false} WindowBytesPermutation(s: seq<Event>, p: seq<Event>, t: int)
    requires multiset(s) == multiset(p)
    ensures WindowBytes(s, t) == WindowBytes(p, t)
  {
    if s == [] {
      assert |p| == |multiset(p)| == 0;
    } else {
      var x := s[|s| - 1];
      assert x in multiset(p);
      var k :| 0 <= k < |p| && p[k] == x;
      MultisetRemove(s, p, k);
      WindowBytesPermutation(s[..|s| - 1], p[..k] + p[k + 1..], t);
      WindowBytesRemove(p, k, t);
    }
  }
}
