/** Debounced push buttons with click and auto-repeat (input_buttons.cpp).
    Pin reads and `millis()` are parameters of `Poll`; the three timing
    constants, which the build defines elsewhere, are fixed per button. */
module InputButtons {
  import opened Ints
  import opened Types

  /** `now - since` in uint32 arithmetic, correct across a `millis()` wrap. */
  function Elapsed(now: u32, since: u32): (d: u32)
    ensures since <= now ==> d == now - since
    ensures now < since ==> d == now - since + 0x1_0000_0000
  {
    ToU32(now - since)
  }

  /** The variable part of a `Button`, as one value. */
  datatype ButtonState = ButtonState(
    lastRead: bool, stable: bool, lastChangeMs: u32, pressStartMs: u32, lastRepeatMs: u32,
    clicked: bool, held: bool, repeated: bool, firstRepeatDone: bool)

  /** The state `Button::begin` leaves: the level read at `now` is both the
      stable and the last raw level, and no event is pending. */
  function Fresh(level: bool, now: u32): (s: ButtonState)
    ensures s.stable == level && s.lastRead == level && s.lastChangeMs == now
    ensures !s.clicked && !s.held && !s.repeated && !s.firstRepeatDone
  {
    ButtonState(level, level, now, 0, 0, false, false, false, false)
  }

  /** One `Button::poll` of state `s` with the pin at level `r` at time `now`. */
  function Next(s: ButtonState, r: bool, now: u32, debounceMs: u32, repeatDelayMs: u32, repeatRateMs: u32)
    : (t: ButtonState)
    // the raw level is recorded, and a change of it restarts the debounce timer
    ensures t.lastRead == r
    ensures t.lastChangeMs == if r != s.lastRead then now else s.lastChangeMs
    // the stable level only ever adopts the raw level, once it has held debounceMs
    ensures t.stable != s.stable ==> t.stable == r && Elapsed(now, t.lastChangeMs) >= debounceMs
    ensures Elapsed(now, t.lastChangeMs) >= debounceMs ==> t.stable == r
    // a click is exactly a stable release, and `held` is the stable level being LOW
    ensures t.clicked <==> s.stable == LOW && t.stable == HIGH
    ensures t.held <==> t.stable == LOW
    // a repeat only while held; it stamps the time and completes the first delay
    ensures t.repeated ==> t.held && t.lastRepeatMs == now && t.firstRepeatDone
    ensures !t.repeated ==> t.firstRepeatDone == (s.firstRepeatDone && !(s.stable == HIGH && t.stable == LOW))
    // a stable press starts the hold clock; it repeats at once only with no delay
    ensures s.stable == HIGH && t.stable == LOW ==>
              t.pressStartMs == now && t.lastRepeatMs == now && (t.repeated <==> repeatDelayMs == 0)
    ensures !(s.stable == HIGH && t.stable == LOW) ==> t.pressStartMs == s.pressStartMs
    // while the press lasts, the first repeat waits for repeatDelayMs, later ones for repeatRateMs
    ensures s.stable == LOW && t.stable == LOW && !s.firstRepeatDone ==>
              (t.repeated <==> Elapsed(now, s.pressStartMs) >= repeatDelayMs)
    ensures s.stable == LOW && t.stable == LOW && s.firstRepeatDone ==>
              (t.repeated <==> Elapsed(now, s.lastRepeatMs) >= repeatRateMs)
    ensures !t.repeated && !(s.stable == HIGH && t.stable == LOW) ==> t.lastRepeatMs == s.lastRepeatMs
  {
    var changeMs := if r != s.lastRead then now else s.lastChangeMs;
    var stable := if Elapsed(now, changeMs) >= debounceMs then r else s.stable;
    var pressed := s.stable == HIGH && stable == LOW;
    var pressStart := if pressed then now else s.pressStartMs;
    var done0 := if pressed then false else s.firstRepeatDone;
    var last0 := if pressed then now else s.lastRepeatMs;
    var repeated :=
      stable == LOW &&
      if !done0 then Elapsed(now, pressStart) >= repeatDelayMs
      else Elapsed(now, last0) >= repeatRateMs;
    ButtonState(r, stable, changeMs, pressStart, if repeated then now else last0,
                s.stable == LOW && stable == HIGH, stable == LOW, repeated, done0 || repeated)
  }

  class Button {
    const debounceMs: u32      // BTN_DEBOUNCE_MS
    const repeatDelayMs: u32   // BTN_REPEAT_DELAY_MS
    const repeatRateMs: u32    // BTN_REPEAT_RATE_MS
    var lastRead: bool
    var stable: bool
    var lastChangeMs: u32
    var pressStartMs: u32
    var lastRepeatMs: u32
    var clicked: bool
    var held: bool
    var repeated: bool
    var firstRepeatDone: bool

    function State(): ButtonState
      reads this
    {
      ButtonState(lastRead, stable, lastChangeMs, pressStartMs, lastRepeatMs,
                  clicked, held, repeated, firstRepeatDone)
    }

    /** `Button::begin` with these timing constants. */
    predicate Started(level: bool, now: u32, debounceMs: u32, repeatDelayMs: u32, repeatRateMs: u32)
      reads this
    {
      && this.debounceMs == debounceMs && this.repeatDelayMs == repeatDelayMs
      && this.repeatRateMs == repeatRateMs
      && State() == Fresh(level, now)
    }

    /** `Button::begin`: the current level is taken as stable. */
    constructor Begin(level: bool, now: u32, debounceMs: u32, repeatDelayMs: u32, repeatRateMs: u32)
      ensures Started(level, now, debounceMs, repeatDelayMs, repeatRateMs)
    {
      this.debounceMs := debounceMs;
      this.repeatDelayMs := repeatDelayMs;
      this.repeatRateMs := repeatRateMs;
      stable := level;
      lastRead := level;
      lastChangeMs := now;
      pressStartMs := 0;
      lastRepeatMs := 0;
      clicked := false;
      held := false;
      repeated := false;
      firstRepeatDone := false;
    }

    /** `Next` with this button's timing constants. */
    function After(s: ButtonState, r: bool, now: u32): ButtonState
    {
      Next(s, r, now, debounceMs, repeatDelayMs, repeatRateMs)
    }

    /** `isPressed()` */
    predicate IsPressed()
      reads this
    {
      stable == LOW
    }

    /** `Button::poll` with the pin at level `r` at time `now`: the step
        `Next`, whose contract says what it means. */
    method Poll(r: bool, now: u32) returns (action: bool)
      modifies this
      ensures State() == After(old(State()), r, now)
      ensures action == (clicked || repeated)
    {
      ghost var next := After(State(), r, now);
      clicked := false;
      held := false;
      repeated := false;

      if r != lastRead {
        lastRead := r;
        lastChangeMs := now;
      }

      if Elapsed(now, lastChangeMs) >= debounceMs {
        if stable != lastRead {
          var prev := stable;
          stable := lastRead;
          if prev == HIGH && stable == LOW {
            pressStartMs := now;
            lastRepeatMs := now;
            firstRepeatDone := false;
          } else if prev == LOW && stable == HIGH {
            clicked := true;
          }
        }
      }

      assert stable == next.stable && pressStartMs == next.pressStartMs && clicked == next.clicked;
      if stable == LOW {
        held := true;
        var holdTime := Elapsed(now, pressStartMs);
        if !firstRepeatDone {
          if holdTime >= repeatDelayMs {
            repeated := true;
            lastRepeatMs := now;
            firstRepeatDone := true;
          }
        } else {
          if Elapsed(now, lastRepeatMs) >= repeatRateMs {
            repeated := true;
            lastRepeatMs := now;
          }
        }
      }

      action := clicked || repeated;
    }
  }

  /** A press held for `holdMs` past the debounce and then released gives
      exactly one click, on the poll that sees the release become stable,
      however long the press lasted. */
  method PressThenReleaseClicksOnce(debounceMs: u32, holdMs: u32) returns (clicks: nat, heldWhilePressed: bool)
    requires 2 * debounceMs + holdMs + 2 < 0x1_0000_0000
    ensures clicks == 1 && heldWhilePressed
  {
    var b := new Button.Begin(HIGH, 0, debounceMs, 0xFFFF_FFFF, 0xFFFF_FFFF);
    clicks := 0;
    var t: u32 := 1;
    var _ := b.Poll(LOW, t);                 // raw press: the timer restarts
    clicks := clicks + (if b.clicked then 1 else 0);
    t := 1 + debounceMs;
    var _ := b.Poll(LOW, t);                 // stable press
    clicks := clicks + (if b.clicked then 1 else 0);
    heldWhilePressed := b.held;
    t := 2 + debounceMs + holdMs;
    var _ := b.Poll(HIGH, t);                // raw release
    clicks := clicks + (if b.clicked then 1 else 0);
    t := 2 + 2 * debounceMs + holdMs;
    var _ := b.Poll(HIGH, t);                // stable release: the click
    clicks := clicks + (if b.clicked then 1 else 0);
  }

  /** `ButtonEvents` */
  datatype ButtonEvents = ButtonEvents(step: i8, okClick: bool, menuClick: bool)

  /** The four-button navigation of `ButtonsInput`. */
  class ButtonsInput {
    const up: Button
    const down: Button
    const ok: Button
    const menu: Button

    predicate Valid()
    {
      up != down && up != ok && up != menu && down != ok && down != menu && ok != menu
    }

    /** The states of the four buttons, UP, DOWN, OK and MENU. */
    function States(): (ButtonState, ButtonState, ButtonState, ButtonState)
      reads up, down, ok, menu
    {
      (up.State(), down.State(), ok.State(), menu.State())
    }

    /** Each button polled once, at its own level. */
    function AfterAll(q: (ButtonState, ButtonState, ButtonState, ButtonState),
                      upLevel: bool, downLevel: bool, okLevel: bool, menuLevel: bool, now: u32)
      : (ButtonState, ButtonState, ButtonState, ButtonState)
    {
      (up.After(q.0, upLevel, now), down.After(q.1, downLevel, now),
       ok.After(q.2, okLevel, now), menu.After(q.3, menuLevel, now))
    }

    /** `ButtonsInput::begin` */
    constructor Begin(upLevel: bool, downLevel: bool, okLevel: bool, menuLevel: bool, now: u32,
                      debounceMs: u32, repeatDelayMs: u32, repeatRateMs: u32)
      ensures Valid() && fresh(up) && fresh(down) && fresh(ok) && fresh(menu)
      ensures up.Started(upLevel, now, debounceMs, repeatDelayMs, repeatRateMs)
      ensures down.Started(downLevel, now, debounceMs, repeatDelayMs, repeatRateMs)
      ensures ok.Started(okLevel, now, debounceMs, repeatDelayMs, repeatRateMs)
      ensures menu.Started(menuLevel, now, debounceMs, repeatDelayMs, repeatRateMs)
    {
      up := new Button.Begin(upLevel, now, debounceMs, repeatDelayMs, repeatRateMs);
      down := new Button.Begin(downLevel, now, debounceMs, repeatDelayMs, repeatRateMs);
      ok := new Button.Begin(okLevel, now, debounceMs, repeatDelayMs, repeatRateMs);
      menu := new Button.Begin(menuLevel, now, debounceMs, repeatDelayMs, repeatRateMs);
    }

    /** `ButtonsInput::poll`: UP steps -1 and DOWN +1 (DOWN wins when both
        fire), each on a click or a repeat; OK and MENU report clicks only. */
    method Poll(upLevel: bool, downLevel: bool, okLevel: bool, menuLevel: bool, now: u32)
      returns (ev: ButtonEvents)
      requires Valid()
      modifies up, down, ok, menu
      ensures States() == AfterAll(old(States()), upLevel, downLevel, okLevel, menuLevel, now)
      ensures ev.step == if down.clicked || down.repeated then 1
                         else if up.clicked || up.repeated then -1
                         else 0
      ensures ev.okClick == ok.clicked && ev.menuClick == menu.clicked
    {
      ev := ButtonEvents(0, false, false);
      var _ := up.Poll(upLevel, now);
      var _ := down.Poll(downLevel, now);
      var _ := ok.Poll(okLevel, now);
      var _ := menu.Poll(menuLevel, now);
      if up.clicked || up.repeated {
        ev := ev.(step := -1);
      }
      if down.clicked || down.repeated {
        ev := ev.(step := 1);
      }
      if ok.clicked {
        ev := ev.(okClick := true);
      }
      if menu.clicked {
        ev := ev.(menuClick := true);
      }
    }
  }

  /** Scenario: four released buttons set up and polled again, still
      released, report nothing, whatever the timing constants. */
  method IdleButtonsAreQuiet(now: u32, debounceMs: u32, repeatDelayMs: u32, repeatRateMs: u32)
    returns (ev: ButtonEvents)
    ensures ev == ButtonEvents(0, false, false)
  {
    var b := new ButtonsInput.Begin(HIGH, HIGH, HIGH, HIGH, now, debounceMs, repeatDelayMs, repeatRateMs);
    ev := b.Poll(HIGH, HIGH, HIGH, HIGH, ToU32(now + 1));
  }
}
