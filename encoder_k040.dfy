/** The KY-040 encoder as the firmware reads it (encoder_k040.cpp): a step
    on every change of line A, its sign from line B, and a level-triggered
    button. Pin levels are parameters. */
module Encoder {
  import opened Ints
  import opened Types

  class EncoderK040 {
    var lastA: bool

    /** `EncoderK040::begin`: remember the current level of A. */
    constructor Begin(a: bool)
      ensures lastA == a
    {
      lastA := a;
    }

    /** `EncoderK040::poll` with A, B and the button at the given levels.
        A step is reported exactly when A differs from its last level:
        +1 when B then differs from A, -1 when it equals A. The click is the
        button's level (LOW = pressed) on this poll; hold is never set. */
    method Poll(a: bool, b: bool, btn: bool) returns (ev: EncoderEvents)
      modifies this
      ensures ev.step != 0 <==> a != old(lastA)
      ensures a != old(lastA) ==> ev.step == if b != a then 1 else -1
      ensures lastA == a
      ensures ev.click <==> btn == LOW
      ensures !ev.hold
    {
      ev := EncoderEvents(0, false, false);
      if a != lastA {
        if b != a {
          ev := ev.(step := 1);
        } else {
          ev := ev.(step := -1);
        }
        lastA := a;
      }
      if btn == LOW {
        ev := ev.(click := true);
      }
    }
  }

  /** One change of A gives one step; polling again before A moves gives none. */
  method OneStepPerEdge(a0: bool, b: bool) returns (first: i8, second: i8)
    ensures first == (if b != !a0 then 1 else -1) && second == 0
  {
    var enc := new EncoderK040.Begin(a0);
    var e := enc.Poll(a0, b, HIGH);
    assert e.step == 0;
    e := enc.Poll(!a0, b, HIGH);
    first := e.step;
    e := enc.Poll(!a0, b, HIGH);
    second := e.step;
  }
}
