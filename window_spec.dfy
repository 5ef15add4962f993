/** What `max_bytes` computes, stated two ways: as the largest window total over
    the events (independent of order), and as the running maximum a single
    sweep over timestamp-sorted events produces. */
module WindowSpec {
  import opened Events

  /** The largest total of the windows ending at the timestamps of the candidates `c`,
      measured over the events `s`; 0 when there are no candidates. */
  function BestOver(s: seq<Event>, c: seq<Event>): (m: nat)
    ensures forall e :: e in c ==> WindowBytes(s, e.timestamp) <= m
    ensures c != [] ==> exists e :: e in c && WindowBytes(s, e.timestamp) == m
    ensures c == [] ==> m == 0
  {
    if c == [] then 0
    else
      var rest := BestOver(s, c[..|c| - 1]);
      assert forall e :: e in c ==> e in c[..|c| - 1] || e == c[|c| - 1];
      Max(rest, WindowBytes(s, c[|c| - 1].timestamp))
  }

  /** Reference answer: the largest total of bytes of the events with timestamps in
      `[t - 4, t]`, over every event timestamp `t` of `s`; 0 for no events. */
  function MaxWindow(s: seq<Event>): (m: nat)
    ensures forall e :: e in s ==> WindowBytes(s, e.timestamp) <= m
    ensures s != [] ==> exists e :: e in s && WindowBytes(s, e.timestamp) == m
    ensures s == [] ==> m == 0
  {
    BestOver(s, s)
  }

  /** The running maximum of the sweep: after each event of `s` (in the order given),
      the total of the window of the events seen so far that ends at that event. */
  function PrefixMax(s: seq<Event>): nat
  {
    if s == [] then 0
    else Max(PrefixMax(s[..|s| - 1]), WindowBytes(s, s[|s| - 1].timestamp))
  }

  /** Extending the processed prefix by the event `s[i]` updates the running maximum
      with the window that ends at `s[i]`. */
  lemma PrefixMaxStep(s: seq<Event>, i: nat)
    requires i < |s|
    ensures PrefixMax(s[..i + 1]) == Max(PrefixMax(s[..i]), WindowBytes(s[..i + 1], s[i].timestamp))
  {
    var u := s[..i + 1];
    assert u[..|u| - 1] == s[..i] && u[|u| - 1] == s[i];
  }

  /** Every candidate answer is bounded by the reference answer of any longer sequence. */
  lemma {:induction false} PrefixMaxBelow(s: seq<Event>, u: seq<Event>)
    requires |s| <= |u| && s == u[..|s|]
    ensures PrefixMax(s) <= MaxWindow(u)
  {
    if s != [] {
      var n := |s| - 1;
      PrefixMaxBelow(s[..n], u);
      WindowBytesPrefix(u, |s|, s[n].timestamp);
      assert s[n] == u[n];
    }
  }

  /** In a timestamp-sorted sequence the sweep sees every window in full at the last
      event of its timestamp, so it never misses the best one. */
  lemma {:induction false} WindowBelowPrefixMax(s: seq<Event>, e: Event)
    requires SortedByTime(s) && e in s
    ensures WindowBytes(s, e.timestamp) <= PrefixMax(s)
  {
    var n := |s| - 1;
    var x := s[n];
    if e.timestamp != x.timestamp {
      var k :| 0 <= k < |s| && s[k] == e;
      assert k < n;
      assert s[..n][k] == e;
      WindowBelowPrefixMax(s[..n], e);
      assert e.timestamp < x.timestamp;
    }
  }

  /** For timestamp-sorted events the sweep's running maximum is the reference answer. */
  lemma {:induction false} SweepIsMaxWindow(s: seq<Event>)
    requires SortedByTime(s)
    ensures PrefixMax(s) == MaxWindow(s)
  {
    PrefixMaxBelow(s, s);
    if s != [] {
      var me := MaxWindow(s);
      var e :| e in s && WindowBytes(s, e.timestamp) == me;
      WindowBelowPrefixMax(s, e);
    }
  }

  /** The reference answer does not depend on the order of the events. */
  lemma MaxWindowPermutation(s: seq<Event>, p: seq<Event>)
    requires multiset(s) == multiset(p)
    ensures MaxWindow(s) == MaxWindow(p)
  {
    if s != [] {
      assert p != [] by {
        assert |p| == |multiset(p)| == |multiset(s)| == |s|;
      }
      var me := MaxWindow(s);
      var e :| e in s && WindowBytes(s, e.timestamp) == me;
      var mf := MaxWindow(p);
      var f :| f in p && WindowBytes(p, f.timestamp) == mf;
      assert e in multiset(p) && f in multiset(s);
      WindowBytesPermutation(s, p, e.timestamp);
      WindowBytesPermutation(s, p, f.timestamp);
    } else {
      assert |p| == |multiset(p)| == 0;
    }
  }
}
