/** The settings menu (menu.cpp): cursor movement over 17 items, an edit mode,
    saturating edits of the settings, one-shot actions, and the three-row
    window it renders. The text of each item (its `snprintf` output) is an
    input of the renderer. */
module Menu {
  import opened Ints
  import opened Types
  import opened CText

  const ITEM_COUNT: int := 17

  /** `MenuAction`: a one-shot request to the application. */
  datatype MenuAction =
    | ActNone
    | ActSave
    | ActDefaults
    | ActRecompute
    | ActCalStart60
    | ActCalStart120
    | ActCalClear

  /** `clampI32` */
  function ClampI32(v: int, lo: int, hi: int): (r: int)
    ensures lo <= hi ==> lo <= r <= hi
    ensures lo <= v <= hi ==> r == v
    ensures v < lo ==> r == lo
    ensures lo <= hi && v > hi ==> r == hi
  {
    if v < lo then lo else if v > hi then hi else v
  }

  /** The `pot_avg_N` ladder 4 <-> 8 <-> 16; other values stay. */
  function NextAvgN(n: u8, step: i8): (r: u8)
  {
    if step > 0 then (if n == 4 then 8 else if n == 8 then 16 else n)
    else (if n == 16 then 8 else if n == 8 then 4 else n)
  }

  /** Items whose change invalidates the recommended flow. */
  predicate Recomputes(idx: u8)
  {
    idx == 0 || idx == 1 || idx == 5 || idx == 6 || idx == 7
  }

  /** The edit `switch` of `menuOnDelta`: the new settings and the action. */
  function EditItem(idx: u8, step: i8, s: Settings): (r: (Settings, MenuAction))
    ensures r.1 == if Recomputes(idx) then ActRecompute else ActNone
    ensures idx > 10 ==> r.0 == s
    ensures idx == 0 ==> r.0 == s.(material := r.0.material) && r.0.material in {MAT_STEEL, MAT_ALUMINUM}
    ensures idx == 1 ==> r.0 == s.(cutterMm := r.0.cutterMm) && 3 <= r.0.cutterMm <= 50
    ensures idx == 2 ==> r.0 == s.(mode := r.0.mode) && r.0.mode in {MODE_CONT, MODE_PULSE}
    ensures idx == 3 ==> r.0 == s.(pulseOnMs := r.0.pulseOnMs) && 100 <= r.0.pulseOnMs <= 5000
    ensures idx == 4 ==> r.0 == s.(pulseOffMs := r.0.pulseOffMs) && 100 <= r.0.pulseOffMs <= 10000
    ensures idx == 5 ==> r.0 == s.(kminX100 := r.0.kminX100) && 20 <= r.0.kminX100 <= 100
    ensures idx == 6 ==> r.0 == s.(kmaxX100 := r.0.kmaxX100) && 120 <= r.0.kmaxX100 <= 400
    ensures idx == 7 ==> r.0 == s.(alFactorX100 := r.0.alFactorX100) && 100 <= r.0.alFactorX100 <= 200
    ensures idx == 8 ==> r.0 == s.(potAvgN := r.0.potAvgN)
    ensures idx == 9 ==> r.0 == s.(potHystX100 := r.0.potHystX100) && r.0.potHystX100 <= 50
    ensures idx == 10 ==> r.0 == s.(pumpGain := r.0.pumpGain) && 50 <= r.0.pumpGain <= 50000
    // each numeric item moves by whole steps of its own size and saturates at its bounds
    ensures idx == 1 ==> r.0.cutterMm == ClampI32(s.cutterMm + step, 3, 50)
    ensures idx == 3 ==> r.0.pulseOnMs == ClampI32(s.pulseOnMs + step * 50, 100, 5000)
    ensures idx == 4 ==> r.0.pulseOffMs == ClampI32(s.pulseOffMs + step * 100, 100, 10000)
    ensures idx == 5 ==> r.0.kminX100 == ClampI32(s.kminX100 + step * 2, 20, 100)
    ensures idx == 6 ==> r.0.kmaxX100 == ClampI32(s.kmaxX100 + step * 5, 120, 400)
    ensures idx == 7 ==> r.0.alFactorX100 == ClampI32(s.alFactorX100 + step * 2, 100, 200)
    ensures idx == 9 ==> r.0.potHystX100 == ClampI32(s.potHystX100 + step, 0, 50)
    ensures idx == 10 ==> r.0.pumpGain == ClampI32(ToI32(ToI32(s.pumpGain) + step * 50), 50, 50000)
  {
    match idx
    case 0 => (s.(material := if step > 0 then MAT_ALUMINUM else MAT_STEEL), ActRecompute)
    case 1 => (s.(cutterMm := ClampI32(s.cutterMm + step, 3, 50)), ActRecompute)
    case 2 => (s.(mode := if s.mode == MODE_CONT then MODE_PULSE else MODE_CONT), ActNone)
    case 3 => (s.(pulseOnMs := ClampI32(s.pulseOnMs + step * 50, 100, 5000)), ActNone)
    case 4 => (s.(pulseOffMs := ClampI32(s.pulseOffMs + step * 100, 100, 10000)), ActNone)
    case 5 => (s.(kminX100 := ClampI32(s.kminX100 + step * 2, 20, 100)), ActRecompute)
    case 6 => (s.(kmaxX100 := ClampI32(s.kmaxX100 + step * 5, 120, 400)), ActRecompute)
    case 7 => (s.(alFactorX100 := ClampI32(s.alFactorX100 + step * 2, 100, 200)), ActRecompute)
    case 8 => (s.(potAvgN := NextAvgN(s.potAvgN, step)), ActNone)
    case 9 => (s.(potHystX100 := ClampI32(s.potHystX100 + step, 0, 50)), ActNone)
    case 10 =>
      // the gain is edited as an int32: a gain above INT32_MAX reads negative
      var g := ToI32(ToI32(s.pumpGain) + step * 50);
      (s.(pumpGain := ClampI32(g, 50, 50000)), ActNone)
    case _ => (s, ActNone)
  }

  /** Editing the mode toggles it, so two edits restore a valid mode. */
  lemma ModeToggleTwice(s: Settings, a: i8, b: i8)
    requires s.mode == MODE_CONT || s.mode == MODE_PULSE
    ensures EditItem(2, a, s).0.mode != s.mode
    ensures EditItem(2, b, EditItem(2, a, s).0).0 == s
  {
  }

  /** Material follows the sign of the step, whatever it was before. */
  lemma MaterialFollowsStep(s: Settings, step: i8)
    requires step != 0
    ensures EditItem(0, step, s).0.material == if step > 0 then MAT_ALUMINUM else MAT_STEEL
  {
  }

  /** The averaging depth moves one rung along 4, 8, 16 and saturates at the
      ends; a depth off the ladder is left as it is. */
  lemma AvgNLadder(s: Settings, step: i8)
    requires step != 0
    ensures var n := EditItem(8, step, s).0.potAvgN;
            && (s.potAvgN in {4, 8, 16} ==> n in {4, 8, 16})
            && (s.potAvgN !in {4, 8, 16} ==> n == s.potAvgN)
            && (step > 0 && s.potAvgN in {4, 8} ==> n == 2 * s.potAvgN)
            && (step < 0 && s.potAvgN in {8, 16} ==> 2 * n == s.potAvgN)
            && (s.potAvgN == 16 && step > 0 ==> n == 16)
            && (s.potAvgN == 4 && step < 0 ==> n == 4)
  {
  }

  /** A value on its item's grid (a multiple of the item's step above the
      lower bound) stays on that grid: pulse ON moves in 50 ms steps, pulse
      OFF in 100 ms steps, kmin and the aluminium factor by 0.02, kmax by 0.05
      and the gain by 50. */
  lemma EditKeepsGrid(s: Settings, step: i8)
    ensures 100 <= s.pulseOnMs <= 5000 && s.pulseOnMs % 50 == 0 ==>
              EditItem(3, step, s).0.pulseOnMs % 50 == 0
    ensures 100 <= s.pulseOffMs <= 10000 && s.pulseOffMs % 100 == 0 ==>
              EditItem(4, step, s).0.pulseOffMs % 100 == 0
    ensures 20 <= s.kminX100 <= 100 && s.kminX100 % 2 == 0 ==>
              EditItem(5, step, s).0.kminX100 % 2 == 0
    ensures 120 <= s.kmaxX100 <= 400 && s.kmaxX100 % 5 == 0 ==>
              EditItem(6, step, s).0.kmaxX100 % 5 == 0
    ensures 100 <= s.alFactorX100 <= 200 && s.alFactorX100 % 2 == 0 ==>
              EditItem(7, step, s).0.alFactorX100 % 2 == 0
    ensures 50 <= s.pumpGain <= 50000 && s.pumpGain % 50 == 0 ==>
              EditItem(10, step, s).0.pumpGain % 50 == 0
  {
    ClampOnGrid(s.pulseOnMs, step, 50, 100, 5000);
    ClampOnGrid(s.pulseOffMs, step, 100, 100, 10000);
    ClampOnGrid(s.kminX100, step, 2, 20, 100);
    ClampOnGrid(s.kmaxX100, step, 5, 120, 400);
    ClampOnGrid(s.alFactorX100, step, 2, 100, 200);
    ClampOnGrid(s.pumpGain, step, 50, 50, 50000);
    if 50 <= s.pumpGain <= 50000 {
      assert ToI32(s.pumpGain) + step * 50 == s.pumpGain + step * 50;
    }
  }

  /** A value on a grid, moved by whole grid steps and clamped to bounds on
      the grid, stays on the grid. */
  lemma ClampOnGrid(v: int, step: int, g: int, lo: int, hi: int)
    requires g in {2, 5, 50, 100} && lo <= hi && lo % g == 0 && hi % g == 0
    ensures v % g == 0 ==> ClampI32(v + step * g, lo, hi) % g == 0
  {
    OnGrid(v, step, g);
  }

  /** A value on a grid stays on it after whole grid steps. */
  lemma OnGrid(v: int, step: int, g: int)
    requires g in {2, 5, 50, 100}
    ensures v % g == 0 ==> (v + step * g) % g == 0
  {
  }

  /** An in-range value moves in the direction of the step (or stays at a bound). */
  lemma EditFollowsDirection(s: Settings, step: i8)
    ensures 3 <= s.cutterMm <= 50 ==>
              (step > 0 ==> EditItem(1, step, s).0.cutterMm >= s.cutterMm) &&
              (step < 0 ==> EditItem(1, step, s).0.cutterMm <= s.cutterMm)
    ensures 50 <= s.pumpGain <= 50000 ==>
              (step > 0 ==> EditItem(10, step, s).0.pumpGain >= s.pumpGain) &&
              (step < 0 ==> EditItem(10, step, s).0.pumpGain <= s.pumpGain)
  {
  }

  /** `top` of `menuRender3`: the block of three holding the cursor, pulled
      back so the window never runs past the last item. */
  function WindowTop(index: u8): (top: int)
    ensures 0 <= top <= ITEM_COUNT - 3
    ensures index < ITEM_COUNT ==> top <= index <= top + 2
  {
    var t := (index / 3) * 3;
    if t > ITEM_COUNT - 3 then ITEM_COUNT - 3 else t
  }

  /** The marker in column 0: '>' on the cursor row, '*' there while editing. */
  function Lead(index: u8, editing: bool, idx: int): (c: char)
    ensures c != ' ' <==> idx == index
  {
    if idx == index then (if editing then '*' else '>') else ' '
  }

  /** A menu line: the marker, the item text padded to 19 columns, NUL. */
  function ItemLine(lead: char, text: string): (line: seq<char>)
    ensures |line| == 21 && line[0] == lead && line[20] == NUL
  {
    [lead] + Padded(text, 19) + [NUL]
  }

  /** `pad19` */
  method Pad19(out19: array<char>, s: string)
    requires out19.Length == 20
    modifies out19
    ensures out19[..] == Padded(s, 19) + [NUL]
  {
    PadInto(out19, s, 19);
  }

  /** The layout part of `makeItemLine`; `text` is what its `snprintf` printed. */
  method MakeItemLine(out: array<char>, lead: char, text: string)
    requires out.Length == 21
    modifies out
    ensures out[..] == ItemLine(lead, text)
  {
    out[0] := lead;
    var padded := new char[20];
    Pad19(padded, text);
    for i := 0 to 19
      invariant padded[..] == Padded(text, 19) + [NUL]
      invariant out[0] == lead
      invariant forall k :: 0 <= k < i ==> out[1 + k] == padded[k]
    {
      out[1 + i] := padded[i];
    }
    out[20] := NUL;
    forall k | 0 <= k < 21
      ensures out[..][k] == ItemLine(lead, text)[k]
    {
      if 1 <= k < 20 {
        assert padded[k - 1] == (Padded(text, 19) + [NUL])[k - 1];
      }
    }
  }

  /** `MenuState`: the cursor and the edit flag. */
  class MenuState {
    var index: u8
    var editing: bool

    constructor ()
      ensures index == 0 && !editing
    {
      index := 0;
      editing := false;
    }

    /** `menuReset` */
    method Reset()
      modifies this
      ensures index == 0 && !editing
    {
      index := 0;
      editing := false;
    }

    /** `menuOnDelta`: a zero step does nothing; outside edit mode the cursor
        moves and saturates at the first and last item; in edit mode the
        selected item's setting is edited. */
    method OnDelta(step: i8, s: Settings) returns (act: MenuAction, s': Settings)
      modifies this
      ensures editing == old(editing)
      ensures step == 0 ==> act == ActNone && s' == s && index == old(index)
      ensures step != 0 && !editing ==>
                act == ActNone && s' == s && index == ClampI32(old(index) + step, 0, ITEM_COUNT - 1)
      ensures step != 0 && editing ==> index == old(index) && (s', act) == EditItem(index, step, s)
      ensures old(index) < ITEM_COUNT ==> index < ITEM_COUNT
    {
      if step == 0 {
        return ActNone, s;
      }
      if !editing {
        var ni := index + step;
        if ni < 0 {
          ni := 0;
        }
        if ni >= ITEM_COUNT {
          ni := ITEM_COUNT - 1;
        }
        index := ni;
        return ActNone, s;
      }
      var r := EditItem(index, step, s);
      s', act := r.0, r.1;
    }

    /** `menuOnClick`: outside edit mode the calibration, save and defaults
        items fire their action, the read-only calibration value does
        nothing, and every other item enters edit mode; in edit mode a click
        leaves it. */
    method OnClick() returns (act: MenuAction)
      modifies this`editing
      ensures old(editing) ==> !editing && act == ActNone
      ensures !old(editing) ==>
                && act == (match index
                           case 11 => ActCalStart60
                           case 12 => ActCalStart120
                           case 14 => ActCalClear
                           case 15 => ActSave
                           case 16 => ActDefaults
                           case _ => ActNone)
                && editing == !(11 <= index <= 16)
    {
      if !editing {
        if index == 11 { return ActCalStart60; }
        if index == 12 { return ActCalStart120; }
        if index == 14 { return ActCalClear; }
        if index == 15 { return ActSave; }
        if index == 16 { return ActDefaults; }
        if index == 13 { return ActNone; }
        editing := true;
        return ActNone;
      } else {
        editing := false;
        return ActNone;
      }
    }
  }

  /** `menuRender3`: the three item lines of the window at `WindowTop`; the
      cursor row, and only it, carries a marker. */
  method Render3(m: MenuState, texts: seq<string>, line1: array<char>, line2: array<char>, line3: array<char>)
    requires |texts| == ITEM_COUNT
    requires line1.Length == 21 && line2.Length == 21 && line3.Length == 21
    requires line1 != line2 && line2 != line3 && line1 != line3
    modifies line1, line2, line3
    ensures var top := WindowTop(m.index);
            && line1[..] == ItemLine(Lead(m.index, m.editing, top), texts[top])
            && line2[..] == ItemLine(Lead(m.index, m.editing, top + 1), texts[top + 1])
            && line3[..] == ItemLine(Lead(m.index, m.editing, top + 2), texts[top + 2])
    ensures m.index < ITEM_COUNT ==>
              var top := WindowTop(m.index);
              && (line1[0] != ' ' <==> m.index == top)
              && (line2[0] != ' ' <==> m.index == top + 1)
              && (line3[0] != ' ' <==> m.index == top + 2)
              && (line1[0] != ' ' || line2[0] != ' ' || line3[0] != ' ')
  {
    var top := WindowTop(m.index);
    for row := 0 to 3
      invariant row > 0 ==> line1[..] == ItemLine(Lead(m.index, m.editing, top), texts[top])
      invariant row > 1 ==> line2[..] == ItemLine(Lead(m.index, m.editing, top + 1), texts[top + 1])
      invariant row > 2 ==> line3[..] == ItemLine(Lead(m.index, m.editing, top + 2), texts[top + 2])
    {
      var idx := top + row;
      var lead := Lead(m.index, m.editing, idx);
      var out := if row == 0 then line1 else if row == 1 then line2 else line3;
      MakeItemLine(out, lead, texts[idx]);
    }
  }
}
