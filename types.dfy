/** The records shared by the controller's modules (types.h). */
module Types {
  import opened Ints

  // Enumerations are stored as their raw byte: the persisted record may hold
  // any byte in these fields, and the loader checks them.
  const UILANG_EN: u8 := 0
  const UILANG_UA: u8 := 1
  const MAT_STEEL: u8 := 0
  const MAT_ALUMINUM: u8 := 1
  const MODE_CONT: u8 := 0
  const MODE_PULSE: u8 := 1

  /** The persisted configuration record `Settings`. */
  datatype Settings = Settings(
    magic: u32,
    uiLang: u8,
    material: u8,
    cutterMm: u8,
    mode: u8,
    pulseOnMs: u16,
    pulseOffMs: u16,
    kminX100: u16,
    kmaxX100: u16,
    alFactorX100: u16,
    potAvgN: u8,
    potHystX100: u8,
    pumpGain: u32,        // steps per unit-per-minute
    stepsPerRev: u32,
    calibrated: bool,
    mlPerUX1000: u32,
    lastRecX100: i32)

  /** `EncoderEvents`: one poll's step (+1/-1/0), click and hold. */
  datatype EncoderEvents = EncoderEvents(step: i8, click: bool, hold: bool)

  /** Logic levels: `HIGH` is released / disabled on every line here. */
  const HIGH: bool := true
  const LOW: bool := false
}
