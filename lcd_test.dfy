/** The character-set test (lcd_test.cpp): while active, the display shows 64
    character codes from a base code that the encoder moves up or down by 16,
    wrapping at 256; OK or MENU leave the test. */
module LcdTest {
  import opened Ints
  import opened Ui
  import opened CText

  /** The base code `lcdTestEnter` uses when none is given, and the initial
      value of `gBase`. */
  const DEFAULT_BASE: u8 := 0x20

  /** The base after one encoder event: 16 codes up for a positive direction,
      16 down for a negative one, modulo 256; unchanged for 0. */
  function Stepped(base: u8, dir: i8): (r: u8)
    ensures dir == 0 ==> r == base
    ensures dir > 0 ==> (r - base) % 256 == 16
    ensures dir < 0 ==> (base - r) % 256 == 16
  {
    if dir > 0 then ToU8(base + 0x10)
    else if dir < 0 then ToU8(base - 0x10)
    else base
  }

  /** A step one way followed by a step the other way restores the base. */
  lemma StepBackRestores(base: u8, up: i8, down: i8)
    requires up > 0 && down < 0
    ensures Stepped(Stepped(base, up), down) == base
    ensures Stepped(Stepped(base, down), up) == base
  {
  }

  /** The base after `n` steps up. */
  function StepsUp(base: u8, n: nat): u8
  {
    if n == 0 then base else Stepped(StepsUp(base, n - 1), 1)
  }

  /** `n` steps up move the base `16n` codes, modulo 256. */
  lemma {:induction false} StepsUpWrap(base: u8, n: nat)
    ensures StepsUp(base, n) == (base + 16 * n) % 256
  {
    if n > 0 {
      StepsUpWrap(base, n - 1);
      var a: int := base as int + 16 * (n - 1);
      var prev: int := StepsUp(base, n - 1) as int;
      assert StepsUp(base, n) as int == (prev + 16) % 256;
      ModSum(a, 16);
      assert a + 16 == base as int + 16 * n;
    }
  }

  /** Sixteen more steps up bring the base back to where it was: the bases
      cycle with period 16. */
  lemma SixteenStepsCycle(base: u8, n: nat)
    ensures StepsUp(base, n + 16) == StepsUp(base, n)
  {
    StepsUpWrap(base, n + 16);
    StepsUpWrap(base, n);
    var x := base + 16 * n;
    assert base + 16 * (n + 16) == x + 256;
    ModPeriod(x);
  }

  /** No number of steps changes the low hex digit of the base: from `b` the
      browser reaches only bases congruent to `b` modulo 16. */
  lemma StepsKeepLowDigit(base: u8, n: nat)
    ensures StepsUp(base, n) % 16 == base % 16
  {
    StepsUpWrap(base, n);
    LowDigitKept(base, n, StepsUp(base, n) as int);
  }

  lemma ModPeriod(x: nat)
    ensures (x + 256) % 256 == x % 256
  {
  }

  lemma LowDigitKept(base: nat, n: nat, m: int)
    requires m == (base + 16 * n) % 256
    ensures m % 16 == base % 16
  {
    var q := (base + 16 * n) / 256;
    assert m == base + 16 * (n - 16 * q);
  }

  /** `gActive`/`gBase` together with the display the test draws on. */
  class LcdTestScreen {
    const ui: LcdUi
    var active: bool
    var base: u8

    ghost predicate Valid()
      reads this, ui, ui.lcd
    {
      ui.Valid()
    }

    /** The initial state: inactive, base 0x20. */
    constructor (ui: LcdUi)
      requires ui.Valid()
      ensures Valid() && this.ui == ui && !active && base == DEFAULT_BASE
    {
      this.ui := ui;
      active := false;
      base := DEFAULT_BASE;
    }

    /** `lcdTestEnter`: activate the test at base `b` and draw it. */
    method Enter(b: u8 := DEFAULT_BASE)
      requires Valid()
      modifies this, ui.lcd
      ensures Valid() && active && base == b
      ensures ui.lcd.rows == TestScreen(b)
    {
      active := true;
      base := b;
      Draw();
    }

    /** `lcdTestExit`. */
    method Exit()
      modifies this
      ensures !active && base == old(base)
    {
      active := false;
    }

    /** `lcdTestIsActive`. */
    method IsActive() returns (a: bool)
      ensures a == active
    {
      a := active;
    }

    /** `lcdTestDraw`: the test screen at the current base, only while
        active. */
    method Draw()
      requires Valid()
      modifies ui.lcd
      ensures Valid()
      ensures active ==> ui.lcd.rows == TestScreen(base)
      ensures !active ==> unchanged(ui.lcd)
    {
      if !active {
        return;
      }
      ui.DrawLcdTest(base);
    }

    /** `lcdTestOnOk`: leave the test if it is active. */
    method OnOk()
      modifies this
      ensures !active && base == old(base)
    {
      if active {
        Exit();
      }
    }

    /** `lcdTestOnMenu`: leave the test if it is active. */
    method OnMenu()
      modifies this
      ensures !active && base == old(base)
    {
      if active {
        Exit();
      }
    }

    /** `lcdTestOnEnc`: while active, move the base by one step in the
        direction of `dir` and redraw (also for `dir == 0`); while inactive,
        nothing happens. */
    method OnEnc(dir: i8)
      requires Valid()
      modifies this, ui.lcd
      ensures Valid() && active == old(active)
      ensures old(active) ==> base == Stepped(old(base), dir) && ui.lcd.rows == TestScreen(base)
      ensures !old(active) ==> base == old(base) && unchanged(ui.lcd)
    {
      if !active {
        return;
      }
      if dir > 0 {
        base := ToU8(base + 0x10);
      } else if dir < 0 {
        base := ToU8(base - 0x10);
      }
      Draw();
    }
  }

  /** Entering the test at `b`, turning the encoder one step up and one step
      down shows the starting screen again. */
  method BrowseUpAndBack(b: u8) returns (before: seq<seq<char>>, after: seq<seq<char>>)
    ensures before == TestScreen(b) && after == before
  {
    var ui := new LcdUi.Begin();
    var test := new LcdTestScreen(ui);
    test.Enter(b);
    before := ui.lcd.rows;
    test.OnEnc(1);
    test.OnEnc(-1);
    StepBackRestores(b, 1, -1);
    after := ui.lcd.rows;
  }

  /** Entering the test and leaving it with OK, from a freshly begun
      display: the test screen stays on the display, while the row cache
      still holds the blank rows it had before. */
  method EnterThenLeave(b: u8) returns (ui: LcdUi, test: LcdTestScreen)
    ensures fresh(ui) && fresh(ui.lcd) && fresh(ui.last4)
    ensures ui.Valid() && test.ui == ui && !test.active && test.base == b
    ensures ui.lcd.rows == TestScreen(b) && ui.Compared() == BLANK_CACHE
  {
    ui := new LcdUi.Begin();
    test := new LcdTestScreen(ui);
    ghost var compared := ui.Compared();
    assert compared == BLANK_CACHE;
    test.Enter(b);
    test.OnOk();
    assert ui.Compared() == compared;
  }

  /** The test draws around the row cache of the display: after it, drawing
      a blank first row writes nothing, because the cache still holds the
      blank row from before, and the test row stays on the display. */
  method TestRowOutlivesExit() returns (written: nat, firstRow: seq<char>)
    ensures written == 0
    ensures firstRow == TestRow(DEFAULT_BASE) && firstRow != BLANK_ROW
  {
    var ui, test := EnterThenLeave(DEFAULT_BASE);
    var blank := NewLine("");
    BlankLineMatchesBlankCache(blank[..]);
    var w0 := ui.lcd.writes;
    ui.DrawRow(0, blank);
    written := ui.lcd.writes - w0;
    firstRow := ui.lcd.rows[0];
    DefaultTestRow();
  }

  lemma BlankLineMatchesBlankCache(line: seq<char>)
    requires |line| == LINE && line[..COLS] == Padded("", COLS)
    ensures BLANK_CACHE[0][..COLS] == line[..COLS]
  {
    assert BLANK_CACHE[0][..COLS] == BLANK_ROW;
  }

  /** The first test row at the default base starts with its hex code, so it
      is not blank. */
  lemma DefaultTestRow()
    ensures TestScreen(DEFAULT_BASE)[0] == TestRow(DEFAULT_BASE) != BLANK_ROW
  {
    assert TestRow(DEFAULT_BASE)[0] == '2';
  }
}
