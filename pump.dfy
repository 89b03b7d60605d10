/** The step-pulse generator of the AVR build (pump.cpp): the Timer1 rate
    selection, the enable/disable state, the continuous-dosing rate, and the
    compare-match interrupt's guard. Register writes are recorded as fields. */
module Pump {
  import opened Ints
  import opened Types

  const HZ_MIN: int := 1
  const HZ_MAX: int := 2000
  const OCR_MAX: int := 65535

  /** `prescList`, in the order the search tries it. */
  const PRESCALERS: seq<u16> := [1, 8, 64, 256, 1024]

  /** The clamp at the head of `timerSetFrequency` and in `pumpRunCont`. */
  function ClampHz(hz: int): (r: int)
    ensures HZ_MIN <= r <= HZ_MAX
    ensures HZ_MIN <= hz <= HZ_MAX ==> r == hz
    ensures hz < HZ_MIN ==> r == HZ_MIN
    ensures hz > HZ_MAX ==> r == HZ_MAX
  {
    if hz < HZ_MIN then HZ_MIN else if hz > HZ_MAX then HZ_MAX else hz
  }

  /** The CTC reload `F_CPU / p / hz - 1` as the uint32 expression computes it:
      a zero quotient wraps to 0xFFFFFFFF. */
  function Reload(fCpu: u32, p: int, hz: int): (r: u32)
    requires p >= 1 && hz >= 1
    ensures fCpu / p / hz >= 1 ==> r + 1 == fCpu / p / hz
  {
    ToU32(fCpu / p / hz - 1)
  }

  predicate Fits(fCpu: u32, p: int, hz: int)
    requires p >= 1 && hz >= 1
  {
    Reload(fCpu, p, hz) <= OCR_MAX
  }

  /** What the search promises: the first prescaler of the list whose reload
      fits 16 bits, with that reload; or 1024 and 65535 when none fits. */
  predicate FirstFitChoice(fCpu: u32, hz: int, presc: int, ocr: int)
    requires hz >= 1
  {
    if exists k :: 0 <= k < |PRESCALERS| && Fits(fCpu, PRESCALERS[k], hz) then
      && presc in PRESCALERS
      && Fits(fCpu, presc, hz)
      && ocr == Reload(fCpu, presc, hz)
      && forall k :: 0 <= k < |PRESCALERS| && PRESCALERS[k] < presc ==> !Fits(fCpu, PRESCALERS[k], hz)
    else
      presc == 1024 && ocr == OCR_MAX
  }

  /** The search loop of `timerSetFrequency` (AVR branch): clamp the rate,
      then try the prescalers in order and stop at the first that fits. */
  method TimerSelect(fCpu: u32, hzIn: u16) returns (presc: u16, ocr: u16)
    ensures FirstFitChoice(fCpu, ClampHz(hzIn), presc, ocr)
  {
    var hz := ClampHz(hzIn);
    var bestPresc: u16 := 1024;
    var bestOcr: u32 := 65535;
    var i := 0;
    while i < |PRESCALERS|
      invariant 0 <= i <= |PRESCALERS|
      invariant forall k :: 0 <= k < i ==> !Fits(fCpu, PRESCALERS[k], hz)
      invariant bestPresc == 1024 && bestOcr == OCR_MAX
    {
      var p := PRESCALERS[i];
      var o := Reload(fCpu, p, hz);
      if o <= OCR_MAX {
        bestPresc, bestOcr := p, o;
        break;
      }
      i := i + 1;
    }
    presc, ocr := bestPresc, bestOcr;
  }

  /** With the 16 MHz clock of the Uno/Nano the fallback never happens: the
      largest prescaler always fits, and the undivided clock fits exactly from
      245 Hz up. */
  lemma SixteenMegahertz(hz: int)
    requires HZ_MIN <= hz <= HZ_MAX
    ensures Fits(16_000_000, 1024, hz)
    ensures Fits(16_000_000, 1, hz) <==> hz >= 245
  {
    assert 16_000_000 / 1024 == 15_625;
    DivByLarger(15_625, 1, hz);
    DivByLarger(15_625, hz, HZ_MAX);
    DivByLarger(16_000_000, hz, HZ_MAX);
    if hz >= 245 {
      DivByLarger(16_000_000, 245, hz);
    } else {
      DivByLarger(16_000_000, hz, 244);
    }
  }

  lemma DivByLarger(n: nat, d1: int, d2: int)
    requires 0 < d1 <= d2
    ensures n / d2 <= n / d1
  {
    var q1, q2 := n / d1, n / d2;
    ProductMonotone(q2, d1, d2);
    assert d2 * q2 <= n;
    assert n < d1 * (q1 + 1);
    ProductCancel(d1, q2, q1 + 1);
  }

  lemma ProductCancel(a: int, x: int, y: int)
    requires a > 0 && a * x < a * y
    ensures x < y
  {
    if x >= y {
      ProductMonotone(a, y, x);
    }
  }

  lemma ProductMonotone(a: int, x: int, y: int)
    requires a >= 0 && x <= y
    ensures a * x <= a * y
  {
  }

  /** The step rate `pumpRunCont` programs, or 0 where it stops the pump:
      steps/min is `flow * gain / 100` in 64 bits; the ceiling of steps/min
      over 60 is cast to uint32 and only then clamped to [1, 2000]. */
  function ContRate(flowX100: i32, gain: u32): (hz: int)
    ensures hz == 0 <==> flowX100 <= 0 || gain == 0 || flowX100 * gain / 100 == 0
    ensures hz != 0 ==> HZ_MIN <= hz <= HZ_MAX
  {
    if flowX100 <= 0 || gain == 0 then 0
    else
      var stepsPerMin := flowX100 * gain / 100;
      if stepsPerMin == 0 then 0
      else ClampHz(ToU32((stepsPerMin + 59) / 60))
  }

  /** Below the wrap of the cast, the rate is the ceiling of steps/min over 60
      while that is at most 2000, and 2000 above it. */
  lemma ContRateIsClampedCeiling(flowX100: i32, gain: u32)
    requires flowX100 > 0 && gain > 0
    requires flowX100 * gain / 100 > 0
    requires flowX100 * gain / 100 <= 60 * (0x1_0000_0000 - 1)
    ensures var spm := flowX100 * gain / 100;
            var hz := ContRate(flowX100, gain);
            && (spm <= 60 * HZ_MAX ==> 60 * (hz - 1) < spm <= 60 * hz)
            && (spm > 60 * HZ_MAX ==> hz == HZ_MAX)
  {
    var spm := flowX100 * gain / 100;
    var c := (spm + 59) / 60;
    assert 60 * (c - 1) < spm <= 60 * c;
    assert c < 0x1_0000_0000;
  }

  /** The cast before the clamp: a rate whose ceiling is exactly 2^32 steps
      per second wraps to 0 and is raised to 1 Hz instead of saturating at
      2000 Hz. */
  lemma ContRateWrapsAboveUint32()
    ensures 6144000 * 4194304 / 100 == 60 * 0x1_0000_0000
    ensures ContRate(6144000, 4194304) == 1
  {
  }

  /** Timer1, the ENA line and the step output of the pump driver. */
  class PumpDriver {
    const fCpu: u32
    var stepEnable: bool   // read by the compare-match interrupt
    var timerIrq: bool     // OCIE1A in TIMSK1
    var enaLevel: bool     // ENA pin; inverted: HIGH disables the driver
    var prescaler: u16     // clock select of TCCR1B, 0 = no clock
    var ocr1a: u16
    var pulses: nat        // step pulses emitted on PIN_STEP

    predicate Stopped()
      reads this
    {
      !stepEnable && !timerIrq && enaLevel == HIGH
    }

    predicate Running()
      reads this
    {
      stepEnable && timerIrq && enaLevel == LOW
    }

    /** `pumpBegin` after the static initialisers: ENA HIGH, timer in CTC
        mode with no clock, interrupt off, OCR1A = 2000. */
    constructor Begin(fCpu: u32)
      ensures this.fCpu == fCpu
      ensures Stopped() && prescaler == 0 && ocr1a == 2000 && pulses == 0
    {
      this.fCpu := fCpu;
      stepEnable := false;
      enaLevel := HIGH;
      timerIrq := false;
      prescaler := 0;
      ocr1a := 2000;
      pulses := 0;
    }

    /** `pumpSetEnable`: the flag, the interrupt and the (inverted) ENA line
        all follow `en`. */
    method SetEnable(en: bool)
      modifies this`stepEnable, this`timerIrq, this`enaLevel
      ensures stepEnable == en && timerIrq == en && enaLevel == !en
      ensures en ==> Running()
      ensures !en ==> Stopped()
    {
      stepEnable := en;
      if en {
        timerIrq := true;
      } else {
        timerIrq := false;
      }
      enaLevel := if en then LOW else HIGH;
    }

    /** `pumpStop`: clear the flag, stop the interrupt, ENA HIGH; the rate
        registers keep their values. */
    method Stop()
      modifies this`stepEnable, this`timerIrq, this`enaLevel
      ensures Stopped()
    {
      stepEnable := false;
      timerIrq := false;
      enaLevel := HIGH;
    }

    /** `timerSetFrequency`: program the prescaler and OCR1A chosen by the search. */
    method SetFrequency(hz: u16)
      modifies this`prescaler, this`ocr1a
      ensures FirstFitChoice(fCpu, ClampHz(hz), prescaler, ocr1a)
    {
      var p, o := TimerSelect(fCpu, hz);
      prescaler := p;
      ocr1a := o;
    }

    /** `pumpStartSteps`: 0 stops the pump; any other rate is capped at 2000,
        programmed, and the pump enabled. */
    method StartSteps(stepsPerSec: u32)
      modifies this`stepEnable, this`timerIrq, this`enaLevel, this`prescaler, this`ocr1a
      ensures stepsPerSec == 0 ==> Stopped() && prescaler == old(prescaler) && ocr1a == old(ocr1a)
      ensures stepsPerSec != 0 ==> Running() && FirstFitChoice(fCpu, Min(stepsPerSec, HZ_MAX), prescaler, ocr1a)
    {
      if stepsPerSec == 0 {
        Stop();
        return;
      }
      var sps := stepsPerSec;
      if sps > HZ_MAX {
        sps := HZ_MAX;
      }
      SetFrequency(sps);
      SetEnable(true);
    }

    /** `pumpRunCont`: continuous dosing at `ContRate`, or stop. */
    method RunCont(flowX100: i32, gain: u32)
      modifies this`stepEnable, this`timerIrq, this`enaLevel, this`prescaler, this`ocr1a
      ensures ContRate(flowX100, gain) == 0 ==> Stopped() && prescaler == old(prescaler) && ocr1a == old(ocr1a)
      ensures ContRate(flowX100, gain) != 0 ==> Running() && FirstFitChoice(fCpu, ContRate(flowX100, gain), prescaler, ocr1a)
      ensures flowX100 <= 0 || gain == 0 ==> Stopped()
    {
      if flowX100 <= 0 || gain == 0 {
        Stop();
        return;
      }
      var stepsPerMin := flowX100 * gain / 100;
      if stepsPerMin == 0 {
        Stop();
        return;
      }
      var hz := ToU32((stepsPerMin + 59) / 60);
      if hz < HZ_MIN {
        hz := HZ_MIN;
      }
      if hz > HZ_MAX {
        hz := HZ_MAX;
      }
      SetFrequency(hz);
      SetEnable(true);
    }

    /** `pumpRunPulse` is an empty stub: it leaves its in/out arguments and
        the pump as they were. */
    method RunPulse(phaseOn: bool, phaseStartMs: u32, s: Settings, flowX100: i32)
      returns (phaseOn': bool, phaseStartMs': u32)
      ensures phaseOn' == phaseOn && phaseStartMs' == phaseStartMs
    {
      phaseOn', phaseStartMs' := phaseOn, phaseStartMs;
    }

    /** The TIMER1_COMPA interrupt: one step pulse if and only if enabled. */
    method TimerCompareMatch()
      modifies this`pulses
      ensures pulses == old(pulses) + (if stepEnable then 1 else 0)
    {
      if !stepEnable {
        return;
      }
      pulses := pulses + 1;
    }
  }

  /** Whatever rate ran before, after `pumpStop` or `pumpRunCont` with a zero
      flow the interrupt emits no pulse. */
  method NoPulseAfterStop(fCpu: u32, stepsPerSec: u32, flowX100: i32) returns (emitted: nat)
    requires flowX100 <= 0
    ensures emitted == 0
  {
    var pump := new PumpDriver.Begin(fCpu);
    pump.StartSteps(stepsPerSec);
    pump.Stop();
    var before := pump.pulses;
    pump.TimerCompareMatch();
    pump.StartSteps(stepsPerSec);
    pump.RunCont(flowX100, 1000);
    pump.TimerCompareMatch();
    emitted := pump.pulses - before;
  }
}
