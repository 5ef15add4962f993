/** The module-level list of 50 events that `max_bytes.py` defines and passes to
    `max_bytes` twice; the repository's large-dataset test expects 1435 for it. */
module Demo {
  import opened Events
  import opened WindowSpec

  // The list, in its original (unsorted) order, in ten blocks of five events.
  const DemoBlock0: seq<Event> := [Event(45, 280), Event(3, 300), Event(67, 150), Event(12, 100), Event(89, 420)]
  const DemoBlock1: seq<Event> := [Event(23, 10), Event(56, 250), Event(1, 50), Event(78, 320), Event(34, 180)]
  const DemoBlock2: seq<Event> := [Event(91, 380), Event(15, 75), Event(42, 290), Event(8, 160), Event(73, 110)]
  const DemoBlock3: seq<Event> := [Event(29, 240), Event(61, 220), Event(7, 60), Event(85, 350), Event(36, 95)]
  const DemoBlock4: seq<Event> := [Event(52, 270), Event(19, 130), Event(74, 190), Event(41, 310), Event(6, 80)]
  const DemoBlock5: seq<Event> := [Event(68, 200), Event(25, 170), Event(83, 360), Event(14, 120), Event(57, 260)]
  const DemoBlock6: seq<Event> := [Event(92, 400), Event(38, 210), Event(11, 90), Event(69, 330), Event(26, 140)]
  const DemoBlock7: seq<Event> := [Event(84, 370), Event(47, 230), Event(2, 70), Event(71, 340), Event(33, 155)]
  const DemoBlock8: seq<Event> := [Event(58, 275), Event(16, 105), Event(79, 315), Event(44, 285), Event(9, 85)]
  const DemoBlock9: seq<Event> := [Event(65, 325), Event(28, 165), Event(81, 355), Event(53, 245), Event(18, 115)]
  const DemoEvents: seq<Event> := DemoBlock0 + DemoBlock1 + DemoBlock2 + DemoBlock3 + DemoBlock4 + DemoBlock5 + DemoBlock6 + DemoBlock7 + DemoBlock8 + DemoBlock9

  /** The window total of each block at any time `t`, one term per event. */
  lemma DemoBlock0Windows(t: int)
    ensures WindowBytes(DemoBlock0, t) == Contribution(Event(45, 280), t) + Contribution(Event(3, 300), t) + Contribution(Event(67, 150), t) + Contribution(Event(12, 100), t) + Contribution(Event(89, 420), t)
  {
    var b := DemoBlock0;
    WindowBytesCons(b[4], [], t);
    WindowBytesCons(b[3], [b[4]], t);
    WindowBytesCons(b[2], [b[3], b[4]], t);
    WindowBytesCons(b[1], [b[2], b[3], b[4]], t);
    WindowBytesCons(b[0], [b[1], b[2], b[3], b[4]], t);
    assert [b[4]] == [b[4]] + [];
    assert [b[3], b[4]] == [b[3]] + [b[4]];
    assert [b[2], b[3], b[4]] == [b[2]] + [b[3], b[4]];
    assert [b[1], b[2], b[3], b[4]] == [b[1]] + [b[2], b[3], b[4]];
    assert b == [b[0]] + [b[1], b[2], b[3], b[4]];
  }

  lemma DemoBlock1Windows(t: int)
    ensures WindowBytes(DemoBlock1, t) == Contribution(Event(23, 10), t) + Contribution(Event(56, 250), t) + Contribution(Event(1, 50), t) + Contribution(Event(78, 320), t) + Contribution(Event(34, 180), t)
  {
    var b := DemoBlock1;
    WindowBytesCons(b[4], [], t);
    WindowBytesCons(b[3], [b[4]], t);
    WindowBytesCons(b[2], [b[3], b[4]], t);
    WindowBytesCons(b[1], [b[2], b[3], b[4]], t);
    WindowBytesCons(b[0], [b[1], b[2], b[3], b[4]], t);
    assert [b[4]] == [b[4]] + [];
    assert [b[3], b[4]] == [b[3]] + [b[4]];
    assert [b[2], b[3], b[4]] == [b[2]] + [b[3], b[4]];
    assert [b[1], b[2], b[3], b[4]] == [b[1]] + [b[2], b[3], b[4]];
    assert b == [b[0]] + [b[1], b[2], b[3], b[4]];
  }

  lemma DemoBlock2Windows(t: int)
    ensures WindowBytes(DemoBlock2, t) == Contribution(Event(91, 380), t) + Contribution(Event(15, 75), t) + Contribution(Event(42, 290), t) + Contribution(Event(8, 160), t) + Contribution(Event(73, 110), t)
  {
    var b := DemoBlock2;
    WindowBytesCons(b[4], [], t);
    WindowBytesCons(b[3], [b[4]], t);
    WindowBytesCons(b[2], [b[3], b[4]], t);
    WindowBytesCons(b[1], [b[2], b[3], b[4]], t);
    WindowBytesCons(b[0], [b[1], b[2], b[3], b[4]], t);
    assert [b[4]] == [b[4]] + [];
    assert [b[3], b[4]] == [b[3]] + [b[4]];
    assert [b[2], b[3], b[4]] == [b[2]] + [b[3], b[4]];
    assert [b[1], b[2], b[3], b[4]] == [b[1]] + [b[2], b[3], b[4]];
    assert b == [b[0]] + [b[1], b[2], b[3], b[4]];
  }

  lemma DemoBlock3Windows(t: int)
    ensures WindowBytes(DemoBlock3, t) == Contribution(Event(29, 240), t) + Contribution(Event(61, 220), t) + Contribution(Event(7, 60), t) + Contribution(Event(85, 350), t) + Contribution(Event(36, 95), t)
  {
    var b := DemoBlock3;
    WindowBytesCons(b[4], [], t);
    WindowBytesCons(b[3], [b[4]], t);
    WindowBytesCons(b[2], [b[3], b[4]], t);
    WindowBytesCons(b[1], [b[2], b[3], b[4]], t);
    WindowBytesCons(b[0], [b[1], b[2], b[3], b[4]], t);
    assert [b[4]] == [b[4]] + [];
    assert [b[3], b[4]] == [b[3]] + [b[4]];
    assert [b[2], b[3], b[4]] == [b[2]] + [b[3], b[4]];
    assert [b[1], b[2], b[3], b[4]] == [b[1]] + [b[2], b[3], b[4]];
    assert b == [b[0]] + [b[1], b[2], b[3], b[4]];
  }

  lemma DemoBlock4Windows(t: int)
    ensures WindowBytes(DemoBlock4, t) == Contribution(Event(52, 270), t) + Contribution(Event(19, 130), t) + Contribution(Event(74, 190), t) + Contribution(Event(41, 310), t) + Contribution(Event(6, 80), t)
  {
    var b := DemoBlock4;
    WindowBytesCons(b[4], [], t);
    WindowBytesCons(b[3], [b[4]], t);
    WindowBytesCons(b[2], [b[3], b[4]], t);
    WindowBytesCons(b[1], [b[2], b[3], b[4]], t);
    WindowBytesCons(b[0], [b[1], b[2], b[3], b[4]], t);
    assert [b[4]] == [b[4]] + [];
    assert [b[3], b[4]] == [b[3]] + [b[4]];
    assert [b[2], b[3], b[4]] == [b[2]] + [b[3], b[4]];
    assert [b[1], b[2], b[3], b[4]] == [b[1]] + [b[2], b[3], b[4]];
    assert b == [b[0]] + [b[1], b[2], b[3], b[4]];
  }

  lemma DemoBlock5Windows(t: int)
    ensures WindowBytes(DemoBlock5, t) == Contribution(Event(68, 200), t) + Contribution(Event(25, 170), t) + Contribution(Event(83, 360), t) + Contribution(Event(14, 120), t) + Contribution(Event(57, 260), t)
  {
    var b := DemoBlock5;
    WindowBytesCons(b[4], [], t);
    WindowBytesCons(b[3], [b[4]], t);
    WindowBytesCons(b[2], [b[3], b[4]], t);
    WindowBytesCons(b[1], [b[2], b[3], b[4]], t);
    WindowBytesCons(b[0], [b[1], b[2], b[3], b[4]], t);
    assert [b[4]] == [b[4]] + [];
    assert [b[3], b[4]] == [b[3]] + [b[4]];
    assert [b[2], b[3], b[4]] == [b[2]] + [b[3], b[4]];
    assert [b[1], b[2], b[3], b[4]] == [b[1]] + [b[2], b[3], b[4]];
    assert b == [b[0]] + [b[1], b[2], b[3], b[4]];
  }

  lemma DemoBlock6Windows(t: int)
    ensures WindowBytes(DemoBlock6, t) == Contribution(Event(92, 400), t) + Contribution(Event(38, 210), t) + Contribution(Event(11, 90), t) + Contribution(Event(69, 330), t) + Contribution(Event(26, 140), t)
  {
    var b := DemoBlock6;
    WindowBytesCons(b[4], [], t);
    WindowBytesCons(b[3], [b[4]], t);
    WindowBytesCons(b[2], [b[3], b[4]], t);
    WindowBytesCons(b[1], [b[2], b[3], b[4]], t);
    WindowBytesCons(b[0], [b[1], b[2], b[3], b[4]], t);
    assert [b[4]] == [b[4]] + [];
    assert [b[3], b[4]] == [b[3]] + [b[4]];
    assert [b[2], b[3], b[4]] == [b[2]] + [b[3], b[4]];
    assert [b[1], b[2], b[3], b[4]] == [b[1]] + [b[2], b[3], b[4]];
    assert b == [b[0]] + [b[1], b[2], b[3], b[4]];
  }

  lemma DemoBlock7Windows(t: int)
    ensures WindowBytes(DemoBlock7, t) == Contribution(Event(84, 370), t) + Contribution(Event(47, 230), t) + Contribution(Event(2, 70), t) + Contribution(Event(71, 340), t) + Contribution(Event(33, 155), t)
  {
    var b := DemoBlock7;
    WindowBytesCons(b[4], [], t);
    WindowBytesCons(b[3], [b[4]], t);
    WindowBytesCons(b[2], [b[3], b[4]], t);
    WindowBytesCons(b[1], [b[2], b[3], b[4]], t);
    WindowBytesCons(b[0], [b[1], b[2], b[3], b[4]], t);
    assert [b[4]] == [b[4]] + [];
    assert [b[3], b[4]] == [b[3]] + [b[4]];
    assert [b[2], b[3], b[4]] == [b[2]] + [b[3], b[4]];
    assert [b[1], b[2], b[3], b[4]] == [b[1]] + [b[2], b[3], b[4]];
    assert b == [b[0]] + [b[1], b[2], b[3], b[4]];
  }

  lemma DemoBlock8Windows(t: int)
    ensures WindowBytes(DemoBlock8, t) == Contribution(Event(58, 275), t) + Contribution(Event(16, 105), t) + Contribution(Event(79, 315), t) + Contribution(Event(44, 285), t) + Contribution(Event(9, 85), t)
  {
    var b := DemoBlock8;
    WindowBytesCons(b[4], [], t);
    WindowBytesCons(b[3], [b[4]], t);
    WindowBytesCons(b[2], [b[3], b[4]], t);
    WindowBytesCons(b[1], [b[2], b[3], b[4]], t);
    WindowBytesCons(b[0], [b[1], b[2], b[3], b[4]], t);
    assert [b[4]] == [b[4]] + [];
    assert [b[3], b[4]] == [b[3]] + [b[4]];
    assert [b[2], b[3], b[4]] == [b[2]] + [b[3], b[4]];
    assert [b[1], b[2], b[3], b[4]] == [b[1]] + [b[2], b[3], b[4]];
    assert b == [b[0]] + [b[1], b[2], b[3], b[4]];
  }

  lemma DemoBlock9Windows(t: int)
    ensures WindowBytes(DemoBlock9, t) == Contribution(Event(65, 325), t) + Contribution(Event(28, 165), t) + Contribution(Event(81, 355), t) + Contribution(Event(53, 245), t) + Contribution(Event(18, 115), t)
  {
    var b := DemoBlock9;
    WindowBytesCons(b[4], [], t);
    WindowBytesCons(b[3], [b[4]], t);
    WindowBytesCons(b[2], [b[3], b[4]], t);
    WindowBytesCons(b[1], [b[2], b[3], b[4]], t);
    WindowBytesCons(b[0], [b[1], b[2], b[3], b[4]], t);
    assert [b[4]] == [b[4]] + [];
    assert [b[3], b[4]] == [b[3]] + [b[4]];
    assert [b[2], b[3], b[4]] == [b[2]] + [b[3], b[4]];
    assert [b[1], b[2], b[3], b[4]] == [b[1]] + [b[2], b[3], b[4]];
    assert b == [b[0]] + [b[1], b[2], b[3], b[4]];
  }

  /** The window total of the whole list is the sum over its blocks. */
  lemma DemoWindowsAt(t: int)
    ensures WindowBytes(DemoEvents, t) == WindowBytes(DemoBlock0, t) + WindowBytes(DemoBlock1, t) + WindowBytes(DemoBlock2, t) + WindowBytes(DemoBlock3, t) + WindowBytes(DemoBlock4, t) + WindowBytes(DemoBlock5, t) + WindowBytes(DemoBlock6, t) + WindowBytes(DemoBlock7, t) + WindowBytes(DemoBlock8, t) + WindowBytes(DemoBlock9, t)
  {
    WindowBytesConcat(DemoBlock0, DemoBlock1, t);
    WindowBytesConcat(DemoBlock0 + DemoBlock1, DemoBlock2, t);
    WindowBytesConcat(DemoBlock0 + DemoBlock1 + DemoBlock2, DemoBlock3, t);
    WindowBytesConcat(DemoBlock0 + DemoBlock1 + DemoBlock2 + DemoBlock3, DemoBlock4, t);
    WindowBytesConcat(DemoBlock0 + DemoBlock1 + DemoBlock2 + DemoBlock3 + DemoBlock4, DemoBlock5, t);
    WindowBytesConcat(DemoBlock0 + DemoBlock1 + DemoBlock2 + DemoBlock3 + DemoBlock4 + DemoBlock5, DemoBlock6, t);
    WindowBytesConcat(DemoBlock0 + DemoBlock1 + DemoBlock2 + DemoBlock3 + DemoBlock4 + DemoBlock5 + DemoBlock6, DemoBlock7, t);
    WindowBytesConcat(DemoBlock0 + DemoBlock1 + DemoBlock2 + DemoBlock3 + DemoBlock4 + DemoBlock5 + DemoBlock6 + DemoBlock7, DemoBlock8, t);
    WindowBytesConcat(DemoBlock0 + DemoBlock1 + DemoBlock2 + DemoBlock3 + DemoBlock4 + DemoBlock5 + DemoBlock6 + DemoBlock7 + DemoBlock8, DemoBlock9, t);
  }

  /** The window total at each of the list's timestamps. */
  lemma DemoWindowAt45()
    ensures WindowBytes(DemoEvents, 45) == 1165
  {
    DemoWindowsAt(45);
    DemoBlock0Windows(45);
    DemoBlock1Windows(45);
    DemoBlock2Windows(45);
    DemoBlock3Windows(45);
    DemoBlock4Windows(45);
    DemoBlock5Windows(45);
    DemoBlock6Windows(45);
    DemoBlock7Windows(45);
    DemoBlock8Windows(45);
    DemoBlock9Windows(45);
  }

  lemma DemoWindowAt3()
    ensures WindowBytes(DemoEvents, 3) == 420
  {
    DemoWindowsAt(3);
    DemoBlock0Windows(3);
    DemoBlock1Windows(3);
    DemoBlock2Windows(3);
    DemoBlock3Windows(3);
    DemoBlock4Windows(3);
    DemoBlock5Windows(3);
    DemoBlock6Windows(3);
    DemoBlock7Windows(3);
    DemoBlock8Windows(3);
    DemoBlock9Windows(3);
  }

  lemma DemoWindowAt67()
    ensures WindowBytes(DemoEvents, 67) == 475
  {
    DemoWindowsAt(67);
    DemoBlock0Windows(67);
    DemoBlock1Windows(67);
    DemoBlock2Windows(67);
    DemoBlock3Windows(67);
    DemoBlock4Windows(67);
    DemoBlock5Windows(67);
    DemoBlock6Windows(67);
    DemoBlock7Windows(67);
    DemoBlock8Windows(67);
    DemoBlock9Windows(67);
  }

  lemma DemoWindowAt12()
    ensures WindowBytes(DemoEvents, 12) == 435
  {
    DemoWindowsAt(12);
    DemoBlock0Windows(12);
    DemoBlock1Windows(12);
    DemoBlock2Windows(12);
    DemoBlock3Windows(12);
    DemoBlock4Windows(12);
    DemoBlock5Windows(12);
    DemoBlock6Windows(12);
    DemoBlock7Windows(12);
    DemoBlock8Windows(12);
    DemoBlock9Windows(12);
  }

  lemma DemoWindowAt89()
    ensures WindowBytes(DemoEvents, 89) == 770
  {
    DemoWindowsAt(89);
    DemoBlock0Windows(89);
    DemoBlock1Windows(89);
    DemoBlock2Windows(89);
    DemoBlock3Windows(89);
    DemoBlock4Windows(89);
    DemoBlock5Windows(89);
    DemoBlock6Windows(89);
    DemoBlock7Windows(89);
    DemoBlock8Windows(89);
    DemoBlock9Windows(89);
  }

  lemma DemoWindowAt23()
    ensures WindowBytes(DemoEvents, 23) == 140
  {
    DemoWindowsAt(23);
    DemoBlock0Windows(23);
    DemoBlock1Windows(23);
    DemoBlock2Windows(23);
    DemoBlock3Windows(23);
    DemoBlock4Windows(23);
    DemoBlock5Windows(23);
    DemoBlock6Windows(23);
    DemoBlock7Windows(23);
    DemoBlock8Windows(23);
    DemoBlock9Windows(23);
  }

  lemma DemoWindowAt56()
    ensures WindowBytes(DemoEvents, 56) == 765
  {
    DemoWindowsAt(56);
    DemoBlock0Windows(56);
    DemoBlock1Windows(56);
    DemoBlock2Windows(56);
    DemoBlock3Windows(56);
    DemoBlock4Windows(56);
    DemoBlock5Windows(56);
    DemoBlock6Windows(56);
    DemoBlock7Windows(56);
    DemoBlock8Windows(56);
    DemoBlock9Windows(56);
  }

  lemma DemoWindowAt1()
    ensures WindowBytes(DemoEvents, 1) == 50
  {
    DemoWindowsAt(1);
    DemoBlock0Windows(1);
    DemoBlock1Windows(1);
    DemoBlock2Windows(1);
    DemoBlock3Windows(1);
    DemoBlock4Windows(1);
    DemoBlock5Windows(1);
    DemoBlock6Windows(1);
    DemoBlock7Windows(1);
    DemoBlock8Windows(1);
    DemoBlock9Windows(1);
  }

  lemma DemoWindowAt78()
    ensures WindowBytes(DemoEvents, 78) == 510
  {
    DemoWindowsAt(78);
    DemoBlock0Windows(78);
    DemoBlock1Windows(78);
    DemoBlock2Windows(78);
    DemoBlock3Windows(78);
    DemoBlock4Windows(78);
    DemoBlock5Windows(78);
    DemoBlock6Windows(78);
    DemoBlock7Windows(78);
    DemoBlock8Windows(78);
    DemoBlock9Windows(78);
  }

  lemma DemoWindowAt34()
    ensures WindowBytes(DemoEvents, 34) == 335
  {
    DemoWindowsAt(34);
    DemoBlock0Windows(34);
    DemoBlock1Windows(34);
    DemoBlock2Windows(34);
    DemoBlock3Windows(34);
    DemoBlock4Windows(34);
    DemoBlock5Windows(34);
    DemoBlock6Windows(34);
    DemoBlock7Windows(34);
    DemoBlock8Windows(34);
    DemoBlock9Windows(34);
  }

  lemma DemoWindowAt91()
    ensures WindowBytes(DemoEvents, 91) == 800
  {
    DemoWindowsAt(91);
    DemoBlock0Windows(91);
    DemoBlock1Windows(91);
    DemoBlock2Windows(91);
    DemoBlock3Windows(91);
    DemoBlock4Windows(91);
    DemoBlock5Windows(91);
    DemoBlock6Windows(91);
    DemoBlock7Windows(91);
    DemoBlock8Windows(91);
    DemoBlock9Windows(91);
  }

  lemma DemoWindowAt15()
    ensures WindowBytes(DemoEvents, 15) == 385
  {
    DemoWindowsAt(15);
    DemoBlock0Windows(15);
    DemoBlock1Windows(15);
    DemoBlock2Windows(15);
    DemoBlock3Windows(15);
    DemoBlock4Windows(15);
    DemoBlock5Windows(15);
    DemoBlock6Windows(15);
    DemoBlock7Windows(15);
    DemoBlock8Windows(15);
    DemoBlock9Windows(15);
  }

  lemma DemoWindowAt42()
    ensures WindowBytes(DemoEvents, 42) == 810
  {
    DemoWindowsAt(42);
    DemoBlock0Windows(42);
    DemoBlock1Windows(42);
    DemoBlock2Windows(42);
    DemoBlock3Windows(42);
    DemoBlock4Windows(42);
    DemoBlock5Windows(42);
    DemoBlock6Windows(42);
    DemoBlock7Windows(42);
    DemoBlock8Windows(42);
    DemoBlock9Windows(42);
  }

  lemma DemoWindowAt8()
    ensures WindowBytes(DemoEvents, 8) == 300
  {
    DemoWindowsAt(8);
    DemoBlock0Windows(8);
    DemoBlock1Windows(8);
    DemoBlock2Windows(8);
    DemoBlock3Windows(8);
    DemoBlock4Windows(8);
    DemoBlock5Windows(8);
    DemoBlock6Windows(8);
    DemoBlock7Windows(8);
    DemoBlock8Windows(8);
    DemoBlock9Windows(8);
  }

  lemma DemoWindowAt73()
    ensures WindowBytes(DemoEvents, 73) == 780
  {
    DemoWindowsAt(73);
    DemoBlock0Windows(73);
    DemoBlock1Windows(73);
    DemoBlock2Windows(73);
    DemoBlock3Windows(73);
    DemoBlock4Windows(73);
    DemoBlock5Windows(73);
    DemoBlock6Windows(73);
    DemoBlock7Windows(73);
    DemoBlock8Windows(73);
    DemoBlock9Windows(73);
  }

  lemma DemoWindowAt29()
    ensures WindowBytes(DemoEvents, 29) == 715
  {
    DemoWindowsAt(29);
    DemoBlock0Windows(29);
    DemoBlock1Windows(29);
    DemoBlock2Windows(29);
    DemoBlock3Windows(29);
    DemoBlock4Windows(29);
    DemoBlock5Windows(29);
    DemoBlock6Windows(29);
    DemoBlock7Windows(29);
    DemoBlock8Windows(29);
    DemoBlock9Windows(29);
  }

  lemma DemoWindowAt61()
    ensures WindowBytes(DemoEvents, 61) == 755
  {
    DemoWindowsAt(61);
    DemoBlock0Windows(61);
    DemoBlock1Windows(61);
    DemoBlock2Windows(61);
    DemoBlock3Windows(61);
    DemoBlock4Windows(61);
    DemoBlock5Windows(61);
    DemoBlock6Windows(61);
    DemoBlock7Windows(61);
    DemoBlock8Windows(61);
    DemoBlock9Windows(61);
  }

  lemma DemoWindowAt7()
    ensures WindowBytes(DemoEvents, 7) == 440
  {
    DemoWindowsAt(7);
    DemoBlock0Windows(7);
    DemoBlock1Windows(7);
    DemoBlock2Windows(7);
    DemoBlock3Windows(7);
    DemoBlock4Windows(7);
    DemoBlock5Windows(7);
    DemoBlock6Windows(7);
    DemoBlock7Windows(7);
    DemoBlock8Windows(7);
    DemoBlock9Windows(7);
  }

  lemma DemoWindowAt85()
    ensures WindowBytes(DemoEvents, 85) == 1435
  {
    DemoWindowsAt(85);
    DemoBlock0Windows(85);
    DemoBlock1Windows(85);
    DemoBlock2Windows(85);
    DemoBlock3Windows(85);
    DemoBlock4Windows(85);
    DemoBlock5Windows(85);
    DemoBlock6Windows(85);
    DemoBlock7Windows(85);
    DemoBlock8Windows(85);
    DemoBlock9Windows(85);
  }

  lemma DemoWindowAt36()
    ensures WindowBytes(DemoEvents, 36) == 430
  {
    DemoWindowsAt(36);
    DemoBlock0Windows(36);
    DemoBlock1Windows(36);
    DemoBlock2Windows(36);
    DemoBlock3Windows(36);
    DemoBlock4Windows(36);
    DemoBlock5Windows(36);
    DemoBlock6Windows(36);
    DemoBlock7Windows(36);
    DemoBlock8Windows(36);
    DemoBlock9Windows(36);
  }

  lemma DemoWindowAt52()
    ensures WindowBytes(DemoEvents, 52) == 270
  {
    DemoWindowsAt(52);
    DemoBlock0Windows(52);
    DemoBlock1Windows(52);
    DemoBlock2Windows(52);
    DemoBlock3Windows(52);
    DemoBlock4Windows(52);
    DemoBlock5Windows(52);
    DemoBlock6Windows(52);
    DemoBlock7Windows(52);
    DemoBlock8Windows(52);
    DemoBlock9Windows(52);
  }

  lemma DemoWindowAt19()
    ensures WindowBytes(DemoEvents, 19) == 425
  {
    DemoWindowsAt(19);
    DemoBlock0Windows(19);
    DemoBlock1Windows(19);
    DemoBlock2Windows(19);
    DemoBlock3Windows(19);
    DemoBlock4Windows(19);
    DemoBlock5Windows(19);
    DemoBlock6Windows(19);
    DemoBlock7Windows(19);
    DemoBlock8Windows(19);
    DemoBlock9Windows(19);
  }

  lemma DemoWindowAt74()
    ensures WindowBytes(DemoEvents, 74) == 640
  {
    DemoWindowsAt(74);
    DemoBlock0Windows(74);
    DemoBlock1Windows(74);
    DemoBlock2Windows(74);
    DemoBlock3Windows(74);
    DemoBlock4Windows(74);
    DemoBlock5Windows(74);
    DemoBlock6Windows(74);
    DemoBlock7Windows(74);
    DemoBlock8Windows(74);
    DemoBlock9Windows(74);
  }

  lemma DemoWindowAt41()
    ensures WindowBytes(DemoEvents, 41) == 520
  {
    DemoWindowsAt(41);
    DemoBlock0Windows(41);
    DemoBlock1Windows(41);
    DemoBlock2Windows(41);
    DemoBlock3Windows(41);
    DemoBlock4Windows(41);
    DemoBlock5Windows(41);
    DemoBlock6Windows(41);
    DemoBlock7Windows(41);
    DemoBlock8Windows(41);
    DemoBlock9Windows(41);
  }

  lemma DemoWindowAt6()
    ensures WindowBytes(DemoEvents, 6) == 450
  {
    DemoWindowsAt(6);
    DemoBlock0Windows(6);
    DemoBlock1Windows(6);
    DemoBlock2Windows(6);
    DemoBlock3Windows(6);
    DemoBlock4Windows(6);
    DemoBlock5Windows(6);
    DemoBlock6Windows(6);
    DemoBlock7Windows(6);
    DemoBlock8Windows(6);
    DemoBlock9Windows(6);
  }

  lemma DemoWindowAt68()
    ensures WindowBytes(DemoEvents, 68) == 675
  {
    DemoWindowsAt(68);
    DemoBlock0Windows(68);
    DemoBlock1Windows(68);
    DemoBlock2Windows(68);
    DemoBlock3Windows(68);
    DemoBlock4Windows(68);
    DemoBlock5Windows(68);
    DemoBlock6Windows(68);
    DemoBlock7Windows(68);
    DemoBlock8Windows(68);
    DemoBlock9Windows(68);
  }

  lemma DemoWindowAt25()
    ensures WindowBytes(DemoEvents, 25) == 180
  {
    DemoWindowsAt(25);
    DemoBlock0Windows(25);
    DemoBlock1Windows(25);
    DemoBlock2Windows(25);
    DemoBlock3Windows(25);
    DemoBlock4Windows(25);
    DemoBlock5Windows(25);
    DemoBlock6Windows(25);
    DemoBlock7Windows(25);
    DemoBlock8Windows(25);
    DemoBlock9Windows(25);
  }

  lemma DemoWindowAt83()
    ensures WindowBytes(DemoEvents, 83) == 1030
  {
    DemoWindowsAt(83);
    DemoBlock0Windows(83);
    DemoBlock1Windows(83);
    DemoBlock2Windows(83);
    DemoBlock3Windows(83);
    DemoBlock4Windows(83);
    DemoBlock5Windows(83);
    DemoBlock6Windows(83);
    DemoBlock7Windows(83);
    DemoBlock8Windows(83);
    DemoBlock9Windows(83);
  }

  lemma DemoWindowAt14()
    ensures WindowBytes(DemoEvents, 14) == 310
  {
    DemoWindowsAt(14);
    DemoBlock0Windows(14);
    DemoBlock1Windows(14);
    DemoBlock2Windows(14);
    DemoBlock3Windows(14);
    DemoBlock4Windows(14);
    DemoBlock5Windows(14);
    DemoBlock6Windows(14);
    DemoBlock7Windows(14);
    DemoBlock8Windows(14);
    DemoBlock9Windows(14);
  }

  lemma DemoWindowAt57()
    ensures WindowBytes(DemoEvents, 57) == 755
  {
    DemoWindowsAt(57);
    DemoBlock0Windows(57);
    DemoBlock1Windows(57);
    DemoBlock2Windows(57);
    DemoBlock3Windows(57);
    DemoBlock4Windows(57);
    DemoBlock5Windows(57);
    DemoBlock6Windows(57);
    DemoBlock7Windows(57);
    DemoBlock8Windows(57);
    DemoBlock9Windows(57);
  }

  lemma DemoWindowAt92()
    ensures WindowBytes(DemoEvents, 92) == 1200
  {
    DemoWindowsAt(92);
    DemoBlock0Windows(92);
    DemoBlock1Windows(92);
    DemoBlock2Windows(92);
    DemoBlock3Windows(92);
    DemoBlock4Windows(92);
    DemoBlock5Windows(92);
    DemoBlock6Windows(92);
    DemoBlock7Windows(92);
    DemoBlock8Windows(92);
    DemoBlock9Windows(92);
  }

  lemma DemoWindowAt38()
    ensures WindowBytes(DemoEvents, 38) == 485
  {
    DemoWindowsAt(38);
    DemoBlock0Windows(38);
    DemoBlock1Windows(38);
    DemoBlock2Windows(38);
    DemoBlock3Windows(38);
    DemoBlock4Windows(38);
    DemoBlock5Windows(38);
    DemoBlock6Windows(38);
    DemoBlock7Windows(38);
    DemoBlock8Windows(38);
    DemoBlock9Windows(38);
  }

  lemma DemoWindowAt11()
    ensures WindowBytes(DemoEvents, 11) == 395
  {
    DemoWindowsAt(11);
    DemoBlock0Windows(11);
    DemoBlock1Windows(11);
    DemoBlock2Windows(11);
    DemoBlock3Windows(11);
    DemoBlock4Windows(11);
    DemoBlock5Windows(11);
    DemoBlock6Windows(11);
    DemoBlock7Windows(11);
    DemoBlock8Windows(11);
    DemoBlock9Windows(11);
  }

  lemma DemoWindowAt69()
    ensures WindowBytes(DemoEvents, 69) == 1005
  {
    DemoWindowsAt(69);
    DemoBlock0Windows(69);
    DemoBlock1Windows(69);
    DemoBlock2Windows(69);
    DemoBlock3Windows(69);
    DemoBlock4Windows(69);
    DemoBlock5Windows(69);
    DemoBlock6Windows(69);
    DemoBlock7Windows(69);
    DemoBlock8Windows(69);
    DemoBlock9Windows(69);
  }

  lemma DemoWindowAt26()
    ensures WindowBytes(DemoEvents, 26) == 320
  {
    DemoWindowsAt(26);
    DemoBlock0Windows(26);
    DemoBlock1Windows(26);
    DemoBlock2Windows(26);
    DemoBlock3Windows(26);
    DemoBlock4Windows(26);
    DemoBlock5Windows(26);
    DemoBlock6Windows(26);
    DemoBlock7Windows(26);
    DemoBlock8Windows(26);
    DemoBlock9Windows(26);
  }

  lemma DemoWindowAt84()
    ensures WindowBytes(DemoEvents, 84) == 1085
  {
    DemoWindowsAt(84);
    DemoBlock0Windows(84);
    DemoBlock1Windows(84);
    DemoBlock2Windows(84);
    DemoBlock3Windows(84);
    DemoBlock4Windows(84);
    DemoBlock5Windows(84);
    DemoBlock6Windows(84);
    DemoBlock7Windows(84);
    DemoBlock8Windows(84);
    DemoBlock9Windows(84);
  }

  lemma DemoWindowAt47()
    ensures WindowBytes(DemoEvents, 47) == 795
  {
    DemoWindowsAt(47);
    DemoBlock0Windows(47);
    DemoBlock1Windows(47);
    DemoBlock2Windows(47);
    DemoBlock3Windows(47);
    DemoBlock4Windows(47);
    DemoBlock5Windows(47);
    DemoBlock6Windows(47);
    DemoBlock7Windows(47);
    DemoBlock8Windows(47);
    DemoBlock9Windows(47);
  }

  lemma DemoWindowAt2()
    ensures WindowBytes(DemoEvents, 2) == 120
  {
    DemoWindowsAt(2);
    DemoBlock0Windows(2);
    DemoBlock1Windows(2);
    DemoBlock2Windows(2);
    DemoBlock3Windows(2);
    DemoBlock4Windows(2);
    DemoBlock5Windows(2);
    DemoBlock6Windows(2);
    DemoBlock7Windows(2);
    DemoBlock8Windows(2);
    DemoBlock9Windows(2);
  }

  lemma DemoWindowAt71()
    ensures WindowBytes(DemoEvents, 71) == 1020
  {
    DemoWindowsAt(71);
    DemoBlock0Windows(71);
    DemoBlock1Windows(71);
    DemoBlock2Windows(71);
    DemoBlock3Windows(71);
    DemoBlock4Windows(71);
    DemoBlock5Windows(71);
    DemoBlock6Windows(71);
    DemoBlock7Windows(71);
    DemoBlock8Windows(71);
    DemoBlock9Windows(71);
  }

  lemma DemoWindowAt33()
    ensures WindowBytes(DemoEvents, 33) == 395
  {
    DemoWindowsAt(33);
    DemoBlock0Windows(33);
    DemoBlock1Windows(33);
    DemoBlock2Windows(33);
    DemoBlock3Windows(33);
    DemoBlock4Windows(33);
    DemoBlock5Windows(33);
    DemoBlock6Windows(33);
    DemoBlock7Windows(33);
    DemoBlock8Windows(33);
    DemoBlock9Windows(33);
  }

  lemma DemoWindowAt58()
    ensures WindowBytes(DemoEvents, 58) == 785
  {
    DemoWindowsAt(58);
    DemoBlock0Windows(58);
    DemoBlock1Windows(58);
    DemoBlock2Windows(58);
    DemoBlock3Windows(58);
    DemoBlock4Windows(58);
    DemoBlock5Windows(58);
    DemoBlock6Windows(58);
    DemoBlock7Windows(58);
    DemoBlock8Windows(58);
    DemoBlock9Windows(58);
  }

  lemma DemoWindowAt16()
    ensures WindowBytes(DemoEvents, 16) == 400
  {
    DemoWindowsAt(16);
    DemoBlock0Windows(16);
    DemoBlock1Windows(16);
    DemoBlock2Windows(16);
    DemoBlock3Windows(16);
    DemoBlock4Windows(16);
    DemoBlock5Windows(16);
    DemoBlock6Windows(16);
    DemoBlock7Windows(16);
    DemoBlock8Windows(16);
    DemoBlock9Windows(16);
  }

  lemma DemoWindowAt79()
    ensures WindowBytes(DemoEvents, 79) == 635
  {
    DemoWindowsAt(79);
    DemoBlock0Windows(79);
    DemoBlock1Windows(79);
    DemoBlock2Windows(79);
    DemoBlock3Windows(79);
    DemoBlock4Windows(79);
    DemoBlock5Windows(79);
    DemoBlock6Windows(79);
    DemoBlock7Windows(79);
    DemoBlock8Windows(79);
    DemoBlock9Windows(79);
  }

  lemma DemoWindowAt44()
    ensures WindowBytes(DemoEvents, 44) == 885
  {
    DemoWindowsAt(44);
    DemoBlock0Windows(44);
    DemoBlock1Windows(44);
    DemoBlock2Windows(44);
    DemoBlock3Windows(44);
    DemoBlock4Windows(44);
    DemoBlock5Windows(44);
    DemoBlock6Windows(44);
    DemoBlock7Windows(44);
    DemoBlock8Windows(44);
    DemoBlock9Windows(44);
  }

  lemma DemoWindowAt9()
    ensures WindowBytes(DemoEvents, 9) == 385
  {
    DemoWindowsAt(9);
    DemoBlock0Windows(9);
    DemoBlock1Windows(9);
    DemoBlock2Windows(9);
    DemoBlock3Windows(9);
    DemoBlock4Windows(9);
    DemoBlock5Windows(9);
    DemoBlock6Windows(9);
    DemoBlock7Windows(9);
    DemoBlock8Windows(9);
    DemoBlock9Windows(9);
  }

  lemma DemoWindowAt65()
    ensures WindowBytes(DemoEvents, 65) == 545
  {
    DemoWindowsAt(65);
    DemoBlock0Windows(65);
    DemoBlock1Windows(65);
    DemoBlock2Windows(65);
    DemoBlock3Windows(65);
    DemoBlock4Windows(65);
    DemoBlock5Windows(65);
    DemoBlock6Windows(65);
    DemoBlock7Windows(65);
    DemoBlock8Windows(65);
    DemoBlock9Windows(65);
  }

  lemma DemoWindowAt28()
    ensures WindowBytes(DemoEvents, 28) == 475
  {
    DemoWindowsAt(28);
    DemoBlock0Windows(28);
    DemoBlock1Windows(28);
    DemoBlock2Windows(28);
    DemoBlock3Windows(28);
    DemoBlock4Windows(28);
    DemoBlock5Windows(28);
    DemoBlock6Windows(28);
    DemoBlock7Windows(28);
    DemoBlock8Windows(28);
    DemoBlock9Windows(28);
  }

  lemma DemoWindowAt81()
    ensures WindowBytes(DemoEvents, 81) == 990
  {
    DemoWindowsAt(81);
    DemoBlock0Windows(81);
    DemoBlock1Windows(81);
    DemoBlock2Windows(81);
    DemoBlock3Windows(81);
    DemoBlock4Windows(81);
    DemoBlock5Windows(81);
    DemoBlock6Windows(81);
    DemoBlock7Windows(81);
    DemoBlock8Windows(81);
    DemoBlock9Windows(81);
  }

  lemma DemoWindowAt53()
    ensures WindowBytes(DemoEvents, 53) == 515
  {
    DemoWindowsAt(53);
    DemoBlock0Windows(53);
    DemoBlock1Windows(53);
    DemoBlock2Windows(53);
    DemoBlock3Windows(53);
    DemoBlock4Windows(53);
    DemoBlock5Windows(53);
    DemoBlock6Windows(53);
    DemoBlock7Windows(53);
    DemoBlock8Windows(53);
    DemoBlock9Windows(53);
  }

  lemma DemoWindowAt18()
    ensures WindowBytes(DemoEvents, 18) == 415
  {
    DemoWindowsAt(18);
    DemoBlock0Windows(18);
    DemoBlock1Windows(18);
    DemoBlock2Windows(18);
    DemoBlock3Windows(18);
    DemoBlock4Windows(18);
    DemoBlock5Windows(18);
    DemoBlock6Windows(18);
    DemoBlock7Windows(18);
    DemoBlock8Windows(18);
    DemoBlock9Windows(18);
  }

  /** No window ending at a timestamp of a block holds more than 1435 bytes. */
  lemma DemoBlock0Bound()
    ensures forall e :: e in DemoBlock0 ==> WindowBytes(DemoEvents, e.timestamp) <= 1435
  {
    DemoWindowAt45();
    DemoWindowAt3();
    DemoWindowAt67();
    DemoWindowAt12();
    DemoWindowAt89();
    forall e | e in DemoBlock0
      ensures WindowBytes(DemoEvents, e.timestamp) <= 1435
    {
      assert e == Event(45, 280) || e == Event(3, 300) || e == Event(67, 150) || e == Event(12, 100) || e == Event(89, 420);
    }
  }

  lemma DemoBlock1Bound()
    ensures forall e :: e in DemoBlock1 ==> WindowBytes(DemoEvents, e.timestamp) <= 1435
  {
    DemoWindowAt23();
    DemoWindowAt56();
    DemoWindowAt1();
    DemoWindowAt78();
    DemoWindowAt34();
    forall e | e in DemoBlock1
      ensures WindowBytes(DemoEvents, e.timestamp) <= 1435
    {
      assert e == Event(23, 10) || e == Event(56, 250) || e == Event(1, 50) || e == Event(78, 320) || e == Event(34, 180);
    }
  }

  lemma DemoBlock2Bound()
    ensures forall e :: e in DemoBlock2 ==> WindowBytes(DemoEvents, e.timestamp) <= 1435
  {
    DemoWindowAt91();
    DemoWindowAt15();
    DemoWindowAt42();
    DemoWindowAt8();
    DemoWindowAt73();
    forall e | e in DemoBlock2
      ensures WindowBytes(DemoEvents, e.timestamp) <= 1435
    {
      assert e == Event(91, 380) || e == Event(15, 75) || e == Event(42, 290) || e == Event(8, 160) || e == Event(73, 110);
    }
  }

  lemma DemoBlock3Bound()
    ensures forall e :: e in DemoBlock3 ==> WindowBytes(DemoEvents, e.timestamp) <= 1435
  {
    DemoWindowAt29();
    DemoWindowAt61();
    DemoWindowAt7();
    DemoWindowAt85();
    DemoWindowAt36();
    forall e | e in DemoBlock3
      ensures WindowBytes(DemoEvents, e.timestamp) <= 1435
    {
      assert e == Event(29, 240) || e == Event(61, 220) || e == Event(7, 60) || e == Event(85, 350) || e == Event(36, 95);
    }
  }

  lemma DemoBlock4Bound()
    ensures forall e :: e in DemoBlock4 ==> WindowBytes(DemoEvents, e.timestamp) <= 1435
  {
    DemoWindowAt52();
    DemoWindowAt19();
    DemoWindowAt74();
    DemoWindowAt41();
    DemoWindowAt6();
    forall e | e in DemoBlock4
      ensures WindowBytes(DemoEvents, e.timestamp) <= 1435
    {
      assert e == Event(52, 270) || e == Event(19, 130) || e == Event(74, 190) || e == Event(41, 310) || e == Event(6, 80);
    }
  }

  lemma DemoBlock5Bound()
    ensures forall e :: e in DemoBlock5 ==> WindowBytes(DemoEvents, e.timestamp) <= 1435
  {
    DemoWindowAt68();
    DemoWindowAt25();
    DemoWindowAt83();
    DemoWindowAt14();
    DemoWindowAt57();
    forall e | e in DemoBlock5
      ensures WindowBytes(DemoEvents, e.timestamp) <= 1435
    {
      assert e == Event(68, 200) || e == Event(25, 170) || e == Event(83, 360) || e == Event(14, 120) || e == Event(57, 260);
    }
  }

  lemma DemoBlock6Bound()
    ensures forall e :: e in DemoBlock6 ==> WindowBytes(DemoEvents, e.timestamp) <= 1435
  {
    DemoWindowAt92();
    DemoWindowAt38();
    DemoWindowAt11();
    DemoWindowAt69();
    DemoWindowAt26();
    forall e | e in DemoBlock6
      ensures WindowBytes(DemoEvents, e.timestamp) <= 1435
    {
      assert e == Event(92, 400) || e == Event(38, 210) || e == Event(11, 90) || e == Event(69, 330) || e == Event(26, 140);
    }
  }

  lemma DemoBlock7Bound()
    ensures forall e :: e in DemoBlock7 ==> WindowBytes(DemoEvents, e.timestamp) <= 1435
  {
    DemoWindowAt84();
    DemoWindowAt47();
    DemoWindowAt2();
    DemoWindowAt71();
    DemoWindowAt33();
    forall e | e in DemoBlock7
      ensures WindowBytes(DemoEvents, e.timestamp) <= 1435
    {
      assert e == Event(84, 370) || e == Event(47, 230) || e == Event(2, 70) || e == Event(71, 340) || e == Event(33, 155);
    }
  }

  lemma DemoBlock8Bound()
    ensures forall e :: e in DemoBlock8 ==> WindowBytes(DemoEvents, e.timestamp) <= 1435
  {
    DemoWindowAt58();
    DemoWindowAt16();
    DemoWindowAt79();
    DemoWindowAt44();
    DemoWindowAt9();
    forall e | e in DemoBlock8
      ensures WindowBytes(DemoEvents, e.timestamp) <= 1435
    {
      assert e == Event(58, 275) || e == Event(16, 105) || e == Event(79, 315) || e == Event(44, 285) || e == Event(9, 85);
    }
  }

  lemma DemoBlock9Bound()
    ensures forall e :: e in DemoBlock9 ==> WindowBytes(DemoEvents, e.timestamp) <= 1435
  {
    DemoWindowAt65();
    DemoWindowAt28();
    DemoWindowAt81();
    DemoWindowAt53();
    DemoWindowAt18();
    forall e | e in DemoBlock9
      ensures WindowBytes(DemoEvents, e.timestamp) <= 1435
    {
      assert e == Event(65, 325) || e == Event(28, 165) || e == Event(81, 355) || e == Event(53, 245) || e == Event(18, 115);
    }
  }

  /** No window ending at a timestamp of the list holds more than 1435 bytes. */
  lemma DemoBound()
    ensures forall e :: e in DemoEvents ==> WindowBytes(DemoEvents, e.timestamp) <= 1435
  {
    DemoBlock0Bound();
    DemoBlock1Bound();
    DemoBlock2Bound();
    DemoBlock3Bound();
    DemoBlock4Bound();
    DemoBlock5Bound();
    DemoBlock6Bound();
    DemoBlock7Bound();
    DemoBlock8Bound();
    DemoBlock9Bound();
    forall e | e in DemoEvents
      ensures WindowBytes(DemoEvents, e.timestamp) <= 1435
    {
      assert e in DemoBlock0 || e in DemoBlock1 || e in DemoBlock2 || e in DemoBlock3 || e in DemoBlock4 || e in DemoBlock5 || e in DemoBlock6 || e in DemoBlock7 || e in DemoBlock8 || e in DemoBlock9;
    }
  }

  /** `max_bytes` returns 1435 for the list: the window ending at 85 (events at
      81, 83, 84 and 85) attains it. */
  lemma DemoAnswer()
    ensures MaxWindow(DemoEvents) == 1435
  {
    DemoBound();
    DemoWindowAt85();
    assert Event(85, 350) in DemoBlock3;
  }
}
