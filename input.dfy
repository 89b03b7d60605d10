/** The input poll of the main loop (input.cpp): the encoder or, in the
    four-button build, the button navigation; the START button's falling
    edge; and the potentiometer's 7/8 moving average. Pin levels, the ADC
    sample and `millis()` are parameters. */
module Input {
  import opened Ints
  import opened Types
  import opened Encoder
  import opened InputButtons

  /** A 10-bit `analogRead` sample. */
  type Adc10 = x: int | 0 <= x < 1024

  /** `InputEvents` */
  datatype InputEvents = InputEvents(encStep: i8, encClick: bool, encLong: bool, menuClick: bool, startClick: bool)

  const NO_EVENTS: InputEvents := InputEvents(0, false, false, false, false)

  /** The levels of the input pins on one poll. In the encoder build UP is
      line A, DOWN line B and OK the encoder button; MENU is unused there. */
  datatype Pins = Pins(up: bool, down: bool, ok: bool, menu: bool, start: bool)

  /** `(avg * 7 + sample) / 8`, in 16-bit arithmetic that cannot overflow for
      10-bit values. The average never passes the sample. Below a higher
      sample it stays put exactly when the sample is at most 7 above it (the
      division truncates the rise away); above a lower sample it always
      falls by at least one. */
  function MovingAverage(avg: Adc10, sample: Adc10): (r: Adc10)
    ensures Min(avg, sample) <= r <= Max(avg, sample)
    ensures sample == avg ==> r == avg
    ensures sample > avg ==> r < sample
    ensures avg <= sample ==> (r == avg <==> sample <= avg + 7)
    ensures sample < avg ==> sample <= r < avg
  {
    (avg * 7 + sample) / 8
  }

  /** The average after `n` polls that all read `sample`. */
  function Iterate(avg: Adc10, sample: Adc10, n: nat): Adc10
  {
    if n == 0 then avg else MovingAverage(Iterate(avg, sample, n - 1), sample)
  }

  /** Repeated samples of one level move the average monotonically toward
      it and never past it. */
  lemma {:induction false} AverageApproaches(avg: Adc10, sample: Adc10, n: nat)
    ensures var r, r' := Iterate(avg, sample, n), Iterate(avg, sample, n + 1);
            && (avg <= sample ==> avg <= r <= r' <= sample)
            && (sample <= avg ==> sample <= r' <= r <= avg)
  {
    if n > 0 {
      AverageApproaches(avg, sample, n - 1);
    }
  }

  /** Toward a lower sample the average falls by at least one per poll
      until it reaches the sample. */
  lemma {:induction false} FallsTowardLowerSample(avg: Adc10, sample: Adc10, n: nat)
    requires sample <= avg
    ensures Iterate(avg, sample, n) <= Max(sample, avg - n)
  {
    if n > 0 {
      FallsTowardLowerSample(avg, sample, n - 1);
    }
  }

  /** From above, the average reaches a lower sample exactly, after at most
      `avg - sample` polls. */
  lemma ReachesLowerSample(avg: Adc10, sample: Adc10)
    requires sample <= avg
    ensures Iterate(avg, sample, avg - sample) == sample
  {
    FallsTowardLowerSample(avg, sample, avg - sample);
    if avg - sample > 0 {
      AverageApproaches(avg, sample, avg - sample - 1);
    }
  }

  /** Toward a higher sample the average rises by at least one per poll
      while it is more than 7 below the sample. */
  lemma {:induction false} RisesTowardHigherSample(avg: Adc10, sample: Adc10, n: nat)
    requires avg <= sample
    ensures Iterate(avg, sample, n) >= Min(sample - 7, avg + n)
  {
    if n > 0 {
      RisesTowardHigherSample(avg, sample, n - 1);
      AverageApproaches(avg, sample, n - 1);
    }
  }

  /** From below, the average settles within 7 under a higher sample after
      at most `sample - avg` polls, and stays there for good: it need not
      reach the sample. */
  lemma SettlesBelowHigherSample(avg: Adc10, sample: Adc10)
    requires avg <= sample
    ensures var r := Iterate(avg, sample, sample - avg);
            && sample - 7 <= r <= sample
            && Iterate(avg, sample, sample - avg + 1) == r
  {
    RisesTowardHigherSample(avg, sample, sample - avg);
    AverageApproaches(avg, sample, sample - avg);
  }

  class InputPoller {
    const buttonsMode: bool     // INPUT_MODE_BUTTONS
    const encoder: EncoderK040
    const buttons: ButtonsInput
    var lastStart: bool         // function-static `lastStart` of inputPoll
    var pAvg: Adc10             // function-static `pAvg` of inputPoll
    var lastPot: Adc10          // function-static `lastPot` of potGetAvgAdc

    predicate Valid()
    {
      buttons.Valid()
    }

    /** `inputBegin` after the static initialisers; both decoders are set
        up, `buttonsMode` picks the one the build polls. */
    constructor Begin(buttonsMode: bool, pins: Pins, now: u32,
                      debounceMs: u32, repeatDelayMs: u32, repeatRateMs: u32)
      ensures Valid() && this.buttonsMode == buttonsMode
      ensures fresh(encoder) && fresh(buttons.up) && fresh(buttons.down) && fresh(buttons.ok) && fresh(buttons.menu)
      ensures encoder.lastA == pins.up
      ensures buttons.up.Started(pins.up, now, debounceMs, repeatDelayMs, repeatRateMs)
      ensures buttons.down.Started(pins.down, now, debounceMs, repeatDelayMs, repeatRateMs)
      ensures buttons.ok.Started(pins.ok, now, debounceMs, repeatDelayMs, repeatRateMs)
      ensures buttons.menu.Started(pins.menu, now, debounceMs, repeatDelayMs, repeatRateMs)
      ensures lastStart == HIGH && pAvg == 0 && lastPot == 0
    {
      this.buttonsMode := buttonsMode;
      encoder := new EncoderK040.Begin(pins.up);
      buttons := new ButtonsInput.Begin(pins.up, pins.down, pins.ok, pins.menu, now,
                                        debounceMs, repeatDelayMs, repeatRateMs);
      lastStart := HIGH;
      pAvg := 0;
      lastPot := 0;
    }

    /** `inputPoll`: start from empty events; take step, click and menu from
        the active decoder (in the encoder build the menu event is the
        encoder's hold, which is never set); report START on a HIGH-to-LOW
        change since the previous poll; update the running average. The
        decoder, START and average touch disjoint state, so the decoder
        step (`PollDecoder`) is taken last here without changing the result. */
    method Poll(pins: Pins, adc: Adc10, now: u32) returns (ev: InputEvents)
      requires Valid()
      modifies this`lastStart, this`pAvg, encoder, buttons.up, buttons.down, buttons.ok, buttons.menu
      ensures !ev.encLong
      ensures !buttonsMode ==>
                && ev.encStep == (if pins.up != old(encoder.lastA) then (if pins.down != pins.up then 1 else -1) else 0)
                && ev.encClick == (pins.ok == LOW)
                && !ev.menuClick
      ensures buttonsMode ==>
                && ev.encStep == (if buttons.down.clicked || buttons.down.repeated then 1
                                  else if buttons.up.clicked || buttons.up.repeated then -1 else 0)
                && ev.encClick == buttons.ok.clicked
                && ev.menuClick == buttons.menu.clicked
      // only the active decoder moves
      ensures !buttonsMode ==>
                && encoder.lastA == pins.up
                && buttons.States() == old(buttons.States())
      ensures buttonsMode ==>
                && encoder.lastA == old(encoder.lastA)
                && buttons.States() == buttons.AfterAll(old(buttons.States()), pins.up, pins.down, pins.ok, pins.menu, now)
      ensures ev.startClick <==> old(lastStart) == HIGH && pins.start == LOW
      ensures lastStart == pins.start
      ensures pAvg == MovingAverage(old(pAvg), adc)
    {
      var startClick := lastStart == HIGH && pins.start == LOW;
      lastStart := pins.start;
      pAvg := MovingAverage(pAvg, adc);
      ev := PollDecoder(pins, now);
      ev := ev.(startClick := startClick);
    }

    /** The `#ifdef INPUT_MODE_BUTTONS` block of `inputPoll`: the events of
        the build's decoder, nothing else reported; only that decoder moves. */
    method PollDecoder(pins: Pins, now: u32) returns (ev: InputEvents)
      requires Valid()
      modifies encoder, buttons.up, buttons.down, buttons.ok, buttons.menu
      ensures !ev.encLong && !ev.startClick
      ensures !buttonsMode ==>
                && ev.encStep == (if pins.up != old(encoder.lastA) then (if pins.down != pins.up then 1 else -1) else 0)
                && ev.encClick == (pins.ok == LOW)
                && !ev.menuClick
      ensures buttonsMode ==>
                && ev.encStep == (if buttons.down.clicked || buttons.down.repeated then 1
                                  else if buttons.up.clicked || buttons.up.repeated then -1 else 0)
                && ev.encClick == buttons.ok.clicked
                && ev.menuClick == buttons.menu.clicked
      ensures !buttonsMode ==>
                && encoder.lastA == pins.up
                && buttons.States() == old(buttons.States())
      ensures buttonsMode ==>
                && encoder.lastA == old(encoder.lastA)
                && buttons.States() == buttons.AfterAll(old(buttons.States()), pins.up, pins.down, pins.ok, pins.menu, now)
    {
      ev := NO_EVENTS;
      if buttonsMode {
        var b := buttons.Poll(pins.up, pins.down, pins.ok, pins.menu, now);
        ev := ev.(encStep := b.step, encClick := b.okClick, menuClick := b.menuClick);
      } else {
        var e := encoder.Poll(pins.up, pins.down, pins.ok);
        ev := ev.(encStep := e.step, encClick := e.click, menuClick := e.hold);
      }
    }

    /** `potGetAvgAdc`: one more step of its own running average. */
    method PotGetAvgAdc(adc: Adc10) returns (v: Adc10)
      modifies this`lastPot
      ensures lastPot == MovingAverage(old(lastPot), adc) && v == lastPot
    {
      lastPot := MovingAverage(lastPot, adc);
      v := lastPot;
    }

    /** `potSetFilterN` ignores its argument. */
    method PotSetFilterN(n: u8)
      ensures unchanged(this)
    {
    }
  }

  /** START fires once per press: holding it LOW on the next poll gives no
      second event. */
  method StartFiresOnce(pins: Pins, adc: Adc10) returns (first: bool, second: bool)
    requires pins.start == LOW
    ensures first && !second
  {
    var p := new InputPoller.Begin(false, pins.(start := HIGH), 0, 25, 500, 100);
    var ev := p.Poll(pins, adc, 1);
    first := ev.startClick;
    ev := p.Poll(pins, adc, 2);
    second := ev.startClick;
  }
}
