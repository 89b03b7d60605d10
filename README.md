# Dosing-pump controller core, modelled in Dafny

This project models the integer and state-machine core of a stepper-pump
dosing controller for an Arduino (AVR) board with a 20x4 character LCD:

- the Timer1 step-pulse generator: clamping the step rate, choosing the
  prescaler and compare value under the 16-bit limit, enabling and disabling
  the driver, and the interrupt's "pulse only when enabled" guard
  (`pump.dfy`);
- the continuous-dosing rate: from a x100 flow and a pump gain to a step
  frequency with ceiling division and a clamp to 1..2000 Hz (`pump.dfy`);
- the recommended flow for a material and cutter diameter (`reco.dfy`);
- the settings menu: cursor, edit mode, saturating edits, one-shot actions,
  and the three-row window (`menu.dfy`);
- factory defaults, validation and repair of the persisted settings
  (`settings.dfy`);
- input decoding: debounced buttons with click and auto-repeat
  (`input_buttons.dfy`), the KY-040 encoder poll (`encoder_k040.dfy`), the
  START button's falling edge and the potentiometer's 7/8 moving average
  (`input.dfy`);
- text: UTF-8 Cyrillic to LCD character codes (`ui_print.dfy`), line padding
  and the row cache that skips unchanged rows, the split of x100 values into
  whole and fraction, hex digits and the character-test screen (`ui.dfy`,
  `ctext.dfy`), and the character-test browser (`lcd_test.dfy`).

Fixed-width C integers are subset types of `int` (`ints.dfy`); every C
conversion that can wrap (`(uint8_t)`, `(uint32_t)`, `(int32_t)`) is written
out as a reduction modulo 2^n. The `Settings` record and the encoder event
record are in `types.dfy`.

Hardware is abstracted as follows. Pin reads, `millis()` and `analogRead()`
are method parameters. Register and pin writes are class fields:
`PumpDriver` has `stepEnable`, `timerIrq` (OCIE1A), `enaLevel`, `prescaler`
and `ocr1a`, and it counts the step pulses the interrupt emits. The
EEPROM image is a field of `SettingsStore.Store`, and saves are counted.
The LCD is four rows of characters plus a cursor and a count of characters
written. The CPU clock `F_CPU` is not defined in the source files, so it is
a constructor parameter of `PumpDriver`. `SixteenMegahertz` covers the
16 MHz board. The button timing constants `BTN_DEBOUNCE_MS`,
`BTN_REPEAT_DELAY_MS` and `BTN_REPEAT_RATE_MS` are not defined there either,
so they are constructor parameters of `Button`. Time differences are taken
modulo 2^32, as the `uint32_t` subtractions do.

Where the text printed by `snprintf` matters (menu items, screen lines), it
is an input: only padding, layout and caching are modelled.

Code and design notes disagree in places, and the model follows the code.
The encoder that is built is a plain poll: a step on every change of line A,
its sign taken from line B. There is no Gray-code table and no
edges-per-detent counter, and its button click is level-triggered. The
pulsed dosing routine `pumpRunPulse` is an empty stub. No calibration
session is implemented in these files. Settings validation exists and is
modelled.

## Model

| member | source | states |
|---|---|---|
| Pump.ClampHz | pump.cpp:102-104 | the rate is forced into [1, 2000]: below 1 gives 1, above 2000 gives 2000, in range is kept |
| Pump.TimerSelect | pump.cpp:102-118 | the prescaler is the first of 1, 8, 64, 256, 1024 whose reload `F_CPU/p/hz - 1` fits 16 bits, and OCR1A is that reload; if none fits, 1024 and 65535 |
| Pump.SixteenMegahertz | pump.cpp:106-118 | at 16 MHz the prescaler 1024 always fits for 1..2000 Hz, so the fallback is unused, and prescaler 1 fits exactly from 245 Hz up |
| Pump.ContRate | pump.cpp:187-203 | the rate is 0 (stop) exactly when flow <= 0, gain is 0 or `flow*gain/100` is 0; otherwise it lies in [1, 2000] |
| Pump.ContRateIsClampedCeiling | pump.cpp:194-203 | below the uint32 wrap, the rate is the ceiling of steps/min over 60 while that is at most 2000, and 2000 above it |
| Pump.ContRateWrapsAboveUint32 | pump.cpp:201-203 | the cast to uint32 before the clamp: a ceiling of exactly 2^32 wraps to 0 and is raised to 1 Hz, not saturated to 2000 |
| Pump.PumpDriver.Begin | pump.cpp:147-157 | power-up: stepping disabled, interrupt off, ENA HIGH, timer without clock, OCR1A = 2000 |
| Pump.PumpDriver.SetEnable | pump.cpp:159-169 | `stepEnable`, the compare interrupt and the inverted ENA line all follow `en` (ENA LOW iff enabled) |
| Pump.PumpDriver.Stop | pump.cpp:181-185 | stepping off, interrupt off, ENA HIGH; prescaler and OCR1A kept |
| Pump.PumpDriver.SetFrequency | pump.cpp:102-125 | the registers receive the first-fit prescaler and reload for the clamped rate |
| Pump.PumpDriver.StartSteps | pump.cpp:171-179 | 0 steps/s stops the pump and leaves the rate registers alone; any other rate is capped at 2000, programmed, and the pump enabled |
| Pump.PumpDriver.RunCont | pump.cpp:187-207 | stops exactly when `ContRate` is 0 (flow <= 0 or gain 0 always stop); otherwise programs `ContRate` and enables |
| Pump.PumpDriver.RunPulse | pump.cpp:209-217 | the stub leaves `phaseOn`, `phaseStartMs` and the pump unchanged |
| Pump.PumpDriver.TimerCompareMatch | pump.cpp:135-141 | the interrupt emits one step pulse if and only if `stepEnable` |
| Pump.NoPulseAfterStop | pump.cpp:181-191 | scenario, for any clock, rate and flow <= 0: after power-up and `pumpStartSteps`, then `pumpStop`, or `pumpStartSteps` again and `pumpRunCont` with that flow, the interrupt emits no pulse |
| Reco.SteelBaseX100 | reco.cpp:5-10 | 35 for <= 6 mm, 55 for 7..12, 90 for 13..25, 140 above; always one of those four |
| Reco.RecFlowX100 | reco.cpp:12-19 | steel gives the table value and ignores the factor; other materials give max(1, steel*factor/100) truncated; the result is in [1, 91749] so the int32 cast is exact |
| Reco.SteelBaseMonotone | reco.cpp:5-10 | the steel table is non-decreasing in the diameter |
| Reco.RecFlowMonotoneInDiameter | reco.cpp:12-19 | for any material the recommendation is non-decreasing in the diameter |
| Reco.RecFlowMonotoneInFactor | reco.cpp:16-18 | for a non-steel material the recommendation is non-decreasing in the aluminium factor |
| Reco.UnitFactorIsSteel | reco.cpp:16 | with factor 100 aluminium recommends exactly what steel does |
| Reco.SteelIgnoresFactor | reco.cpp:13-14 | for steel the aluminium factor has no effect |
| Reco.TenMillimetreExamples | reco.cpp:7-16 | 10 mm gives 55 in steel and 71 in aluminium at factor 130 |
| Menu.ClampI32 | menu.cpp:5 | the value is kept in range and replaced by the nearer bound outside it |
| Menu.EditItem | menu.cpp:109-153 | each edited item changes only its own field and lands in its range (cutter 3..50, pulse ON 100..5000, OFF 100..10000, kmin 20..100, kmax 120..400, Al factor 100..200, hysteresis 0..50, gain 50..50000); each numeric item becomes its old value plus the step times its step size (1, 50, 100, 2, 5, 2, 1, 50; the gain read as int32), saturated at its bounds by `ClampI32`; material, cutter, kmin, kmax and Al factor answer RECOMPUTE, the rest NONE; items past 10 change nothing |
| Menu.ModeToggleTwice | menu.cpp:116-118 | editing the mode toggles CONT/PULSE, so two edits restore it |
| Menu.MaterialFollowsStep | menu.cpp:110-112 | a positive step selects aluminium, a negative one steel |
| Menu.AvgNLadder | menu.cpp:134-140 | the averaging depth moves one rung along 4, 8, 16, saturates at the ends, and stays put off the ladder |
| Menu.EditKeepsGrid | menu.cpp:119-149 | a value on its item's grid stays there: pulse ON by 50, OFF by 100, kmin and Al factor by 2, kmax by 5, gain by 50 |
| Menu.ClampOnGrid | menu.cpp:5 | a grid value moved by whole grid steps and clamped to bounds on the grid stays on the grid |
| Menu.EditFollowsDirection | menu.cpp:113-149 | an in-range cutter or gain moves in the direction of the step or stays at a bound |
| Menu.WindowTop | menu.cpp:174-175 | the window top is at most 14 and holds the cursor: `top <= index <= top + 2` for every index up to 16 |
| Menu.Lead | menu.cpp:181-182 | the marker is non-blank exactly on the cursor row ('>' or '*' while editing) |
| Menu.ItemLine | menu.cpp:92-95 | a menu line is 21 characters: the marker, 19 padded text characters, a NUL |
| Menu.Pad19 | menu.cpp:13-18 | the text up to its NUL or 19 characters, then spaces, then NUL |
| Menu.MakeItemLine | menu.cpp:20-96 | the line buffer holds the marker followed by the 19-column padded text and a NUL |
| Menu.MenuState.Reset | menu.cpp:7-10 | cursor on item 0, not editing |
| Menu.MenuState.OnDelta | menu.cpp:98-154 | step 0 changes nothing; outside edit mode the cursor moves by the step saturated to 0..16 and settings stay; in edit mode the selected item is edited; an index <= 16 stays <= 16 |
| Menu.MenuState.OnClick | menu.cpp:156-171 | outside edit mode items 11, 12, 14, 15, 16 return their action without editing, 13 returns NONE, others enter edit mode; in edit mode a click leaves it |
| Menu.Render3 | menu.cpp:173-186 | the three lines are the items from the window top, and exactly the cursor's line carries a marker |
| SettingsStore.Defaults | settings.cpp:7-33 | the factory record carries the magic, language EN, is uncalibrated, and passes every check of `settingsLoad` |
| SettingsStore.Validate | settings.cpp:45-75 | `bad` is set exactly when the record fails one of the range checks |
| SettingsStore.KeepLang | settings.cpp:79 | EN or UA is kept, anything else becomes EN |
| SettingsStore.Loaded | settings.cpp:35-86 | wrong magic gives defaults with EN and a save; a valid record is kept unsaved; a failing one gives defaults with its language kept and a save; the result always passes the checks and has the magic |
| SettingsStore.InvertedFactorsRejected | settings.cpp:60 | kmax <= kmin always fails validation |
| SettingsStore.FactorCheckedOnlyWhenCalibrated | settings.cpp:70-72 | the ml-per-unit factor is irrelevant to validity when not calibrated |
| SettingsStore.LoadIdempotent | settings.cpp:35-86 | a loaded record reloads unchanged and without a save |
| SettingsStore.Store.LoadDefaults | settings.cpp:7-33 | the working record becomes the factory record |
| SettingsStore.Store.Save | settings.cpp:89-93 | the magic is stamped, no other field changes, and the image is written |
| SettingsStore.Store.Load | settings.cpp:35-86 | the working record becomes `Loaded` of the stored image, and the image is rewritten exactly when `Loaded` asks for a save |
| InputButtons.Elapsed | input_buttons.cpp:35 | `now - since` as uint32: the true difference, or that plus 2^32 across a wrap |
| InputButtons.Fresh | input_buttons.cpp:6-18 | the state `begin` leaves: the level read is both stable and last read, the debounce timer starts now, no event or repeat is pending |
| InputButtons.Next | input_buttons.cpp:20-75 | one poll as a step on the button state: events cleared first; a raw change restarts the debounce timer; the stable level adopts a raw level once it has held `debounceMs`, and only then; click exactly on a stable LOW-to-HIGH change; held exactly when stable LOW; a stable press starts the hold clock and stamps the repeat time; the first repeat after the delay, later ones one per rate period, each stamping the time |
| InputButtons.Button.Begin | input_buttons.cpp:6-18 | the button's state is `Fresh` of the level and time, with the given timing constants |
| InputButtons.Button.Poll | input_buttons.cpp:20-75 | the button's new state is `Next` of its old state, the pin level and the time; it returns click or repeat |
| InputButtons.PressThenReleaseClicksOnce | input_buttons.cpp:29-48 | scenario, for any debounce time and hold time: one button begun released, pressed and released, each for its debounce time, clicks exactly once and is held while pressed |
| InputButtons.ButtonsInput.Begin | input_buttons.cpp:79-84 | four distinct buttons, each begun at its own pin level with the shared timing constants |
| InputButtons.ButtonsInput.Poll | input_buttons.cpp:86-115 | each of the four buttons takes one `Next` step at its own pin level; UP repeat/click gives -1, DOWN +1 and DOWN wins; OK and MENU report clicks only |
| InputButtons.IdleButtonsAreQuiet | input_buttons.cpp:79-115 | scenario, for any timing: four buttons begun released and polled still released report no step and no click |
| Encoder.EncoderK040.Begin | encoder_k040.cpp:3-9 | the current A level is recorded |
| Encoder.EncoderK040.Poll | encoder_k040.cpp:11-28 | a step exactly when A changed, +1 if B then differs from A, -1 otherwise; A is remembered; click is the button level; hold never set |
| Encoder.OneStepPerEdge | encoder_k040.cpp:8-19 | scenario, for any levels: right after begin no step, one step per A change, none when A has not moved again |
| Input.MovingAverage | input.cpp:56 | the 7/8 average lies between the old average and the sample and within 10 bits; below a higher sample it stays put exactly when the sample is at most 7 above it, and otherwise rises but stays below the sample; above a lower sample it falls by at least one and not past the sample |
| Input.AverageApproaches | input.cpp:56 | under repeated samples of one level the average moves monotonically toward it and never passes it |
| Input.FallsTowardLowerSample | input.cpp:56 | toward a lower sample the average falls by at least one per poll until it reaches the sample |
| Input.ReachesLowerSample | input.cpp:56 | from above, the average reaches a lower sample exactly, within `avg - sample` polls |
| Input.RisesTowardHigherSample | input.cpp:56 | toward a higher sample the average rises by at least one per poll while it is more than 7 below |
| Input.SettlesBelowHigherSample | input.cpp:56 | from below, the average settles for good at most 7 under a higher sample, within `sample - avg` polls; it need not reach it |
| Input.InputPoller.Begin | input.cpp:14-28 | the encoder records line A, each of the four buttons is begun at its own pin level with the timing constants; the static START level is HIGH and both static averages 0 |
| Input.InputPoller.Poll | input.cpp:30-57 | events reset, `encLong` never set; the encoder build reports the encoder's step (from the old A level and the pins) and button level, no menu event, remembers A and leaves the buttons alone; the button build reports `ButtonsInput::poll`'s events, steps every button with `Next` and leaves the encoder alone; START fires exactly on HIGH then LOW; the average advances |
| Input.InputPoller.PollDecoder | input.cpp:33-46 | the events of the build's decoder and nothing else, with only that decoder moving, as in `Poll` |
| Input.InputPoller.PotGetAvgAdc | input.cpp:59-63 | its own 7/8 average advances and is returned |
| Input.InputPoller.PotSetFilterN | input.cpp:65-67 | nothing changes |
| Input.StartFiresOnce | input.cpp:49-52 | scenario: after begin with START released, holding it LOW for two polls gives one event |
| UiPrint.CyrillicCode | ui_print.cpp:30-98 | the table has an entry exactly for U+0410..U+044F, '?' elsewhere |
| UiPrint.UnicodeToLcdByte | ui_print.cpp:22-100 | E-diaeresis maps to 0x45, e-diaeresis to 0xB5, each of U+0410..U+044F to its `CyrillicCode` table entry (never '?'), every other code point to '?' |
| UiPrint.SoftSignShortcutAgrees | ui_print.cpp:27 | the explicit soft-sign codes (in the mapper and for D1 8C) agree with the table entry 0xC4 |
| UiPrint.Step | ui_print.cpp:109-155 | ASCII copies one byte; two bytes are consumed exactly for a D0/D1 lead and a continuation byte, and emit the display code of the code point they encode; any other non-ASCII byte, last or not, emits '?' and is consumed alone |
| UiPrint.Transcode | ui_print.cpp:108-156 | one output byte per step, so the output is never longer than the input |
| UiPrint.AsciiUnchanged | ui_print.cpp:112-116 | ASCII text passes through unchanged |
| UiPrint.CyrillicDecodes | ui_print.cpp:128-150 | UTF-8-encoded Cyrillic (U+0400..U+047F) decodes to one display code per letter |
| UiPrint.StepOnEncoded | ui_print.cpp:128-150 | one step reads the two-byte encoding of a code point back as that code point's display code |
| UiPrint.NonCyrillicMarked | ui_print.cpp:112-155 | text without a D0 or D1 lead byte keeps its length: ASCII bytes are copied and every other byte becomes '?' |
| UiPrint.DecodeAt | ui_print.cpp:109-155 | one loop turn emits and consumes what `Step` prescribes |
| UiPrint.Utf8ToLcdEncoding | ui_print.cpp:103-159 | the destination holds the first `min(len, destSize - 1)` bytes of the conversion of the string up to its NUL, then a NUL; nothing after it changes |
| UiPrint.ConvertPrefix | ui_print.cpp:108-156 | the conversion loop writes exactly the first `min(len, destSize - 1)` bytes of the conversion and nothing beyond them |
| UiPrint.TranscodeAdvance | ui_print.cpp:109-155 | one loop turn moves one step's output from the remaining input to the output written so far |
| UiPrint.FinishPrefix | ui_print.cpp:108-156 | when the loop stops (input ended or destination full) what it wrote is the whole conversion, or its `destSize - 1` prefix |
| UiPrint.ConvertUtf8ToAscii | ui_print.cpp:162-164 | the same conversion under its public name, with the same three facts: the converted prefix, the NUL, and nothing after it changed |
| CText.StrLen | ui_print.cpp:106 | `strlen`: the length is the index of the first terminator, or the whole sequence when there is none |
| CText.PadInto | ui.cpp:25-30 | the padding loop copies up to the NUL or `width` characters, fills spaces, and terminates with NUL |
| Ui.Pad20 | ui.cpp:25-30 | the text up to its NUL or 20 characters, then spaces, then NUL |
| Ui.PaddedLine | ui.cpp:25-30 | a padded line is 21 characters, the text before its NUL and spaces after |
| Ui.LcdUi.Begin | ui.cpp:51-59 | the display is cleared and the cache holds four blank lines and is valid |
| Ui.LcdUi.Clear | ui.cpp:61-65 | the display is cleared and the cache reset to blanks |
| Ui.LcdUi.SetLastBlank | ui.cpp:17-23 | every cached row is 20 spaces and a NUL, and the cache is marked valid |
| Ui.LcdUi.SameAsCached | ui.cpp:34 | true exactly when the first 20 characters equal the cached row |
| Ui.LcdUi.WriteRow | ui.cpp:36-37 | the row shows the line's 20 characters, other rows untouched, 20 writes |
| Ui.LcdUi.CopyToCache | ui.cpp:39 | the cached row becomes the line; other rows unchanged |
| Ui.LcdUi.DrawRow | ui.cpp:32-40 | the line is compared with the cached row, or a blank row while the cache is not valid: equal costs no write and changes nothing else; otherwise the display row shows its 20 characters, the line is cached, 20 writes; a synced cache stays synced |
| Ui.LcdUi.Draw4 | ui.cpp:42-48 | from any cache, synced or stale: each row whose 20 characters differ from what the cache held (blank rows if not valid) shows the new line and is cached, every other row keeps what it showed, and the writes are 20 per differing row; from a synced cache the display then shows the four lines and the cache stays synced |
| Ui.LcdUi.DrawEach | ui.cpp:44-47 | the four row draws in order, with the same result as `Draw4` stated through `Redrawn` and `RedrawnRows` |
| Ui.Redrawn | ui.cpp:32-48 | after the first `n` draws, each of those rows is cached with the new line's 20 characters and the others keep their cached copy |
| Ui.RedrawnRows | ui.cpp:32-48 | after the first `n` draws, a drawn row whose line differs from its cached copy shows the line; every other row is unchanged |
| Ui.RedrawnStep | ui.cpp:32-40 | one more draw changes only row `n`, and only when its line differs from the copy cached before `draw4` |
| Ui.RedrawnAdvance | ui.cpp:44-47 | one `drawRow` from the state after `n` draws gives the state after `n + 1`, at 20 writes exactly when row `n` changed |
| Ui.ChangedAmongFour | ui.cpp:42-48 | the rows counted while drawing are exactly the rows whose shown text differs |
| Ui.RedrawnSynced | ui.cpp:42-48 | from a cache that records the display, the display afterwards shows the four lines and the cache records it again |
| Ui.RedrawIsIdempotent | ui.cpp:32-48 | whatever the cache held, drawing the same four lines a second time changes neither cache nor display and writes nothing |
| Ui.NoChangedRowsIffSame | ui.cpp:34 | no row differs exactly when the screens are equal |
| Ui.SplitX100 | ui.cpp:239-240 | the fraction is in 0..99 and whole and fraction name the value (sign from the whole part); INT32_MIN gives -21474836 and -48 |
| Ui.SmallNegativeLosesSign | ui.cpp:142-144 | between -0.99 and -0.01 the printed parts equal those of the positive value |
| Ui.SplitIsExact | ui.cpp:239-240 | two values of the same sign with equal parts are equal |
| Ui.Hex2 | ui.cpp:259-265 | two hex digits |
| Ui.Hex2RoundTrip | ui.cpp:259-265 | the high nibble digit then the low nibble digit read back as the byte |
| Ui.LcdUi.PrintHex2 | ui.cpp:259-265 | the two hex digits are written at the cursor, high nibble first |
| Ui.LcdUi.DrawLcdTestRow | ui.cpp:267-279 | a row shows the base in hex, ": " and the 16 codes from base, modulo 256 |
| Ui.LcdUi.DrawLcdTest | ui.cpp:281-287 | the display shows the test rows for base, base+0x10, +0x20, +0x30 modulo 256 |
| Ui.RowBase | ui.cpp:284-286 | row k starts at `(base + 16k) mod 256` |
| Ui.TestScreenShowsConsecutiveCodes | ui.cpp:267-287 | the test screen shows 64 consecutive codes, wrapping at 256, each row labelled with its first code |
| LcdTest.Stepped | lcd_test.cpp:31-32 | positive dir adds 16, negative subtracts 16, modulo 256; 0 keeps the base |
| LcdTest.StepBackRestores | lcd_test.cpp:31-32 | a step up then down, or down then up, restores the base |
| LcdTest.StepsUpWrap | lcd_test.cpp:31 | n steps up give `(base + 16n) mod 256` |
| LcdTest.SixteenStepsCycle | lcd_test.cpp:31 | the bases cycle with period 16 |
| LcdTest.StepsKeepLowDigit | lcd_test.cpp:31-32 | the low hex digit of the base never changes |
| LcdTest.LcdTestScreen.Enter | lcd_test.cpp:7-11 | active with base `b` (default 0x20) and the test screen drawn |
| LcdTest.LcdTestScreen.Exit | lcd_test.cpp:13-15 | inactive, base kept |
| LcdTest.LcdTestScreen.IsActive | lcd_test.cpp:17-19 | returns the active flag |
| LcdTest.LcdTestScreen.Draw | lcd_test.cpp:21-24 | draws the test screen only while active |
| LcdTest.LcdTestScreen.OnOk | lcd_test.cpp:26 | leaves the test if active; inactive afterwards either way, base kept |
| LcdTest.LcdTestScreen.OnMenu | lcd_test.cpp:27 | leaves the test if active; inactive afterwards either way, base kept |
| LcdTest.LcdTestScreen.OnEnc | lcd_test.cpp:29-34 | inactive: nothing changes; active: base stepped and the screen redrawn |
| LcdTest.BrowseUpAndBack | lcd_test.cpp:29-34 | scenario, for any base: entering, one step up and one down shows the starting screen again |
| LcdTest.EnterThenLeave | lcd_test.cpp:7-26 | scenario, for any base: entering the test and leaving it with OK leaves the test screen on the display while the row cache still holds blank rows |
| LcdTest.TestRowOutlivesExit | lcd_test.cpp:21-27 | scenario at the default base: the test draws around the row cache, so after leaving it a blank first row is not redrawn (no writes) and the test row stays |

## Left out

- Hardware I/O is left out: pin setup, the I2C and LCD driver internals, `delayMicroseconds`, and the AVR register bit layout (TCCR1A/B bits, TIMSK1, SREG). Reads are parameters and writes are fields.
- The Renesas `FspTimer` branch of pump.cpp (lines 15-66) is left out: it uses floating point and a foreign timer library.
- Interrupt concurrency is not modelled: `stepEnable` is `volatile` and shared with the timer interrupt, and `cli`/`sei` bracket the register writes. The interrupt is modelled only as the guard "one pulse iff enabled".
- `stepIntervalUs` (pump.cpp:11) is declared but never used on the AVR path.
- Pulsed dosing, timed calibration and the Gray-code/edges-per-detent decoder are not implemented in these files (`pumpRunPulse` is a stub; the `ENC_*` constants in config.h are unused), so they are not modelled.
- The `snprintf` text composition in `makeItemLine` and in the `uiDraw*` screens is not modelled. Neither are the UI string tables ui_text_en.h and ui_text_ua.h. The item text is an input of `Menu.Render3`.
- `uiPrintAt`, `uiPrintAtUtf8`, `uiClearRow` and `lcdSafePrint` only forward to the LCD library and are not modelled.
- EEPROM is not modelled byte by byte: the stored record is a `Settings` value, so layout changes of the record are out of scope.
- The `uiDrawRun` declaration in ui.h does not match its definition in ui.cpp. That is a build issue, not behaviour.
- encoder_k040.cpp uses a member `_lastA` that encoder_k040.h does not declare. This is also a build issue. The model gives `EncoderK040` the field `lastA` that the code evidently means.
- UiPrint.Utf8ToLcdEncoding: requires `destSize >= 1`. With size 0, `destSize - 1` wraps as a `size_t`, so the loop has no output bound and the NUL is written out of bounds. The only caller, `uiPrintAtUtf8`, passes a 64-byte buffer.
- Menu.EditItem: the gain edit converts the stored `uint32_t` gain to `int32_t`; for gains above INT32_MAX that conversion is implementation-defined in C, and the model takes two's-complement wrap-around, as avr-gcc does (3,000,000,000 becomes -1,294,967,296). The following `int32_t` addition of `step * 50` (at most 6350 in size) can overflow only for converted gains that close to the int32 limits; that overflow is undefined in C, and the model wraps it as well. Neither case is reachable: the load check rejects gains above 2,000,000 and every edit clamps to 50..50000.
- Ui.LcdUi.DrawEach: the four `drawRow` calls of `draw4` (ui.cpp:44-47) are written as a loop over rows 0 to 3. It makes the same calls on the same lines in the same order, so nothing of the behaviour is lost. Only the straight-line form of the source differs.
