/** Factory defaults, validation and repair of the persisted settings
    (settings.cpp). The EEPROM image at address 0 is a field of the store;
    a save copies the working record into it and is counted. */
module SettingsStore {
  import opened Ints
  import opened Types

  /** "MQL1" */
  const SETTINGS_MAGIC: u32 := 0x4D51_4C31

  /** The zero-initialised global `S` before anything is loaded. */
  const ZERO_SETTINGS: Settings := Settings(0, 0, 0, 0, 0, 0, 0, 0, 0, 0, 0, 0, 0, 0, false, 0, 0)

  /** The range checks of `settingsLoad`: a record passes when no check sets `bad`. */
  predicate Valid(s: Settings)
  {
    && (s.uiLang == UILANG_EN || s.uiLang == UILANG_UA)
    && s.material <= MAT_ALUMINUM
    && s.mode <= MODE_PULSE
    && 1 <= s.cutterMm <= 60
    && 10 <= s.pulseOnMs <= 10000
    && 10 <= s.pulseOffMs <= 60000
    && 10 <= s.kminX100 <= 300
    && 20 <= s.kmaxX100 <= 600
    && s.kmaxX100 > s.kminX100
    && 50 <= s.alFactorX100 <= 300
    && 1 <= s.potAvgN <= 32
    && s.potHystX100 <= 50
    && 1 <= s.pumpGain <= 2000000
    && 200 <= s.stepsPerRev <= 50000
    && (s.calibrated ==> 1 <= s.mlPerUX1000 <= 5000000)
    && 1 <= s.lastRecX100 <= 50000
  }

  /** `settingsLoadDefaults`: the factory record, which passes every check. */
  function Defaults(): (d: Settings)
    ensures Valid(d)
    ensures d.magic == SETTINGS_MAGIC && d.uiLang == UILANG_EN && !d.calibrated
  {
    Settings(
      magic := SETTINGS_MAGIC,
      uiLang := UILANG_EN,
      material := MAT_STEEL,
      cutterMm := 10,
      mode := MODE_CONT,
      pulseOnMs := 500,
      pulseOffMs := 2000,
      kminX100 := 50,
      kmaxX100 := 200,
      alFactorX100 := 130,
      potAvgN := 8,
      potHystX100 := 2,
      pumpGain := 1000,
      stepsPerRev := 3200,
      calibrated := false,
      mlPerUX1000 := 0,
      lastRecX100 := 55)
  }

  /** The chain of checks in `settingsLoad`, accumulating `bad`. */
  method Validate(s: Settings) returns (bad: bool)
    ensures bad <==> !Valid(s)
  {
    bad := false;
    if s.uiLang != UILANG_EN && s.uiLang != UILANG_UA { bad := true; }
    if s.material > MAT_ALUMINUM { bad := true; }
    if s.mode > MODE_PULSE { bad := true; }
    if s.cutterMm < 1 || s.cutterMm > 60 { bad := true; }
    if s.pulseOnMs < 10 || s.pulseOnMs > 10000 { bad := true; }
    if s.pulseOffMs < 10 || s.pulseOffMs > 60000 { bad := true; }
    if s.kminX100 < 10 || s.kminX100 > 300 { bad := true; }
    if s.kmaxX100 < 20 || s.kmaxX100 > 600 { bad := true; }
    if s.kmaxX100 <= s.kminX100 { bad := true; }
    if s.alFactorX100 < 50 || s.alFactorX100 > 300 { bad := true; }
    if s.potAvgN < 1 || s.potAvgN > 32 { bad := true; }
    if s.potHystX100 > 50 { bad := true; }
    if s.pumpGain < 1 || s.pumpGain > 2000000 { bad := true; }
    if s.stepsPerRev < 200 || s.stepsPerRev > 50000 { bad := true; }
    if s.calibrated {
      if s.mlPerUX1000 == 0 || s.mlPerUX1000 > 5000000 { bad := true; }
    }
    if s.lastRecX100 < 1 || s.lastRecX100 > 50000 { bad := true; }
  }

  /** The language a failing record keeps: its own if EN or UA, else EN. */
  function KeepLang(lang: u8): (r: u8)
    ensures r == UILANG_EN || r == UILANG_UA
    ensures (lang == UILANG_EN || lang == UILANG_UA) ==> r == lang
  {
    if lang == UILANG_EN || lang == UILANG_UA then lang else UILANG_EN
  }

  /** What `settingsLoad` leaves in `S` for a stored record, and whether it
      writes back: a wrong magic gives the defaults (language EN), a valid
      record is kept as it is, a failing one gives the defaults with its
      language kept. Either way the result passes every check. */
  function Loaded(stored: Settings): (r: (Settings, bool))
    ensures Valid(r.0) && r.0.magic == SETTINGS_MAGIC
    ensures !r.1 <==> stored.magic == SETTINGS_MAGIC && Valid(stored)
    ensures !r.1 ==> r.0 == stored
    ensures r.1 ==> r.0 == Defaults().(uiLang := r.0.uiLang)
    ensures stored.magic != SETTINGS_MAGIC ==> r.0 == Defaults()
    ensures stored.magic == SETTINGS_MAGIC ==> r.0.uiLang == KeepLang(stored.uiLang)
  {
    if stored.magic != SETTINGS_MAGIC then (Defaults(), true)
    else if Valid(stored) then (stored, false)
    else (Defaults().(uiLang := KeepLang(stored.uiLang)), true)
  }

  /** kmax must exceed kmin. */
  lemma InvertedFactorsRejected(s: Settings)
    requires s.kmaxX100 <= s.kminX100
    ensures !Valid(s)
  {
  }

  /** The calibration factor is only checked for a calibrated record. */
  lemma FactorCheckedOnlyWhenCalibrated(s: Settings, f: u32)
    requires !s.calibrated
    ensures Valid(s) <==> Valid(s.(mlPerUX1000 := f))
  {
  }

  /** Loading twice changes nothing more: a loaded record reloads unchanged
      and without a write. */
  lemma LoadIdempotent(stored: Settings)
    ensures Loaded(Loaded(stored).0) == (Loaded(stored).0, false)
  {
  }

  /** The global `S` and the EEPROM image behind it. */
  class Store {
    var cur: Settings
    var eeprom: Settings
    var saves: nat

    constructor (image: Settings)
      ensures cur == ZERO_SETTINGS && eeprom == image && saves == 0
    {
      cur := ZERO_SETTINGS;
      eeprom := image;
      saves := 0;
    }

    /** `settingsLoadDefaults` */
    method LoadDefaults()
      modifies this`cur
      ensures cur == Defaults()
    {
      cur := Defaults();
    }

    /** `settingsSave`: stamp the magic, touch no other field, write the image. */
    method Save()
      modifies this`cur, this`eeprom, this`saves
      ensures cur == old(cur).(magic := SETTINGS_MAGIC)
      ensures eeprom == cur && saves == old(saves) + 1
    {
      cur := cur.(magic := SETTINGS_MAGIC);
      eeprom := cur;
      saves := saves + 1;
    }

    /** `settingsLoad`: read the image, then keep, repair or reset it. */
    method Load()
      modifies this`cur, this`eeprom, this`saves
      ensures cur == Loaded(old(eeprom)).0
      ensures Valid(cur) && cur.magic == SETTINGS_MAGIC
      ensures Loaded(old(eeprom)).1 ==> eeprom == cur && saves == old(saves) + 1
      ensures !Loaded(old(eeprom)).1 ==> eeprom == old(eeprom) && saves == old(saves)
    {
      cur := eeprom;
      if cur.magic != SETTINGS_MAGIC {
        LoadDefaults();
        Save();
        return;
      }
      var bad := Validate(cur);
      if bad {
        var keepLang := if cur.uiLang == UILANG_EN || cur.uiLang == UILANG_UA then cur.uiLang else UILANG_EN;
        LoadDefaults();
        cur := cur.(uiLang := keepLang);
        Save();
      }
    }
  }
}
