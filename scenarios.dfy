/** The scenarios the repository's unit tests check, stated on the reference answer
    that `Aggregator.MaxBytes` is proved to return. */
module Scenarios {
  import opened Events
  import opened WindowSpec

  /** Window totals summed from the front, which unfolds directly on a literal list. */
  function FrontSum(s: seq<Event>, t: int): nat
  {
    if s == [] then 0 else Contribution(s[0], t) + FrontSum(s[1..], t)
  }

  lemma {:induction false} FrontSumIsWindowBytes(s: seq<Event>, t: int)
    ensures WindowBytes(s, t) == FrontSum(s, t)
  {
    if s != [] {
      FrontSumIsWindowBytes(s[1..], t);
      WindowBytesCons(s[0], s[1..], t);
      assert s == [s[0]] + s[1..];
    }
  }

  /** test_empty_list: no events give 0. */
  lemma EmptyList()
    ensures MaxWindow([]) == 0
  {
  }

  /** test_simple_case: the events at 1, 2 and 3 share a window worth 450. */
  lemma SimpleCase()
    ensures MaxWindow([Event(1, 100), Event(2, 50), Event(3, 300), Event(6, 10), Event(7, 30)]) == 450
  {
    var s := [Event(1, 100), Event(2, 50), Event(3, 300), Event(6, 10), Event(7, 30)];
    FrontSumIsWindowBytes(s, 1);
    assert WindowBytes(s, 1) == 100;
    FrontSumIsWindowBytes(s, 2);
    assert WindowBytes(s, 2) == 150;
    FrontSumIsWindowBytes(s, 3);
    assert WindowBytes(s, 3) == 450;
    FrontSumIsWindowBytes(s, 6);
    assert WindowBytes(s, 6) == 360;
    FrontSumIsWindowBytes(s, 7);
    assert WindowBytes(s, 7) == 340;
  }

  /** test_single_event: one event is its own window. */
  lemma SingleEvent()
    ensures MaxWindow([Event(1, 100)]) == 100
  {
    var s := [Event(1, 100)];
    FrontSumIsWindowBytes(s, 1);
    assert WindowBytes(s, 1) == 100;
  }

  /** test_no_overlap: no two events share a window, so the largest single event wins. */
  lemma NoOverlap()
    ensures MaxWindow([Event(1, 100), Event(10, 200), Event(20, 300)]) == 300
  {
    var s := [Event(1, 100), Event(10, 200), Event(20, 300)];
    FrontSumIsWindowBytes(s, 1);
    assert WindowBytes(s, 1) == 100;
    FrontSumIsWindowBytes(s, 10);
    assert WindowBytes(s, 10) == 200;
    FrontSumIsWindowBytes(s, 20);
    assert WindowBytes(s, 20) == 300;
  }

  /** test_all_in_window: all four events fit in one window. */
  lemma AllInWindow()
    ensures MaxWindow([Event(1, 100), Event(2, 200), Event(3, 150), Event(4, 50)]) == 500
  {
    var s := [Event(1, 100), Event(2, 200), Event(3, 150), Event(4, 50)];
    FrontSumIsWindowBytes(s, 1);
    assert WindowBytes(s, 1) == 100;
    FrontSumIsWindowBytes(s, 2);
    assert WindowBytes(s, 2) == 300;
    FrontSumIsWindowBytes(s, 3);
    assert WindowBytes(s, 3) == 450;
    FrontSumIsWindowBytes(s, 4);
    assert WindowBytes(s, 4) == 500;
  }

  /** test_unsorted_events: input order does not matter. */
  lemma UnsortedEvents()
    ensures MaxWindow([Event(5, 100), Event(1, 200), Event(3, 150), Event(2, 50)]) == 500
  {
    var s := [Event(5, 100), Event(1, 200), Event(3, 150), Event(2, 50)];
    FrontSumIsWindowBytes(s, 1);
    assert WindowBytes(s, 1) == 200;
    FrontSumIsWindowBytes(s, 2);
    assert WindowBytes(s, 2) == 250;
    FrontSumIsWindowBytes(s, 3);
    assert WindowBytes(s, 3) == 400;
    FrontSumIsWindowBytes(s, 5);
    assert WindowBytes(s, 5) == 500;
  }

  /** test_sliding_window: the window 5..9 is the best one. */
  lemma SlidingWindow()
    ensures MaxWindow([Event(1, 100), Event(3, 200), Event(5, 300), Event(7, 400), Event(9, 150)]) == 900
  {
    var s := [Event(1, 100), Event(3, 200), Event(5, 300), Event(7, 400), Event(9, 150)];
    FrontSumIsWindowBytes(s, 1);
    assert WindowBytes(s, 1) == 100;
    FrontSumIsWindowBytes(s, 3);
    assert WindowBytes(s, 3) == 300;
    FrontSumIsWindowBytes(s, 5);
    assert WindowBytes(s, 5) == 600;
    FrontSumIsWindowBytes(s, 7);
    assert WindowBytes(s, 7) == 900;
    FrontSumIsWindowBytes(s, 9);
    assert WindowBytes(s, 9) == 850;
  }

  /** test_boundary_case: events 5 apart (1 and 6) are never summed; 5 and 6 give 500. */
  lemma BoundaryCase()
    ensures MaxWindow([Event(1, 100), Event(5, 200), Event(6, 300)]) == 500
  {
    var s := [Event(1, 100), Event(5, 200), Event(6, 300)];
    FrontSumIsWindowBytes(s, 1);
    assert WindowBytes(s, 1) == 100;
    FrontSumIsWindowBytes(s, 5);
    assert WindowBytes(s, 5) == 300;
    FrontSumIsWindowBytes(s, 6);
    assert WindowBytes(s, 6) == 500;
  }

  /** test_identical_timestamps: events at one timestamp are summed together. */
  lemma IdenticalTimestamps()
    ensures MaxWindow([Event(1, 100), Event(1, 200), Event(1, 150)]) == 450
  {
    var s := [Event(1, 100), Event(1, 200), Event(1, 150)];
    FrontSumIsWindowBytes(s, 1);
    assert WindowBytes(s, 1) == 450;
  }

  /** test_zero_bytes: events of zero bytes add nothing. */
  lemma ZeroBytes()
    ensures MaxWindow([Event(1, 0), Event(2, 100), Event(3, 0)]) == 100
  {
    var s := [Event(1, 0), Event(2, 100), Event(3, 0)];
    FrontSumIsWindowBytes(s, 1);
    assert WindowBytes(s, 1) == 0;
    FrontSumIsWindowBytes(s, 2);
    assert WindowBytes(s, 2) == 100;
    FrontSumIsWindowBytes(s, 3);
    assert WindowBytes(s, 3) == 100;
  }
}
