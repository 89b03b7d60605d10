/** The recommended flow for a material and cutter diameter (reco.cpp).
    Flows are in hundredths of a unit per minute. */
module Reco {
  import opened Ints
  import opened Types

  /** `recFlowSteelBase_x100`: the diameter breakpoint table for steel. */
  function SteelBaseX100(diaMm: u8): (r: i32)
    ensures r in {35, 55, 90, 140}
    ensures r == 35 <==> diaMm <= 6
    ensures r == 55 <==> 7 <= diaMm <= 12
    ensures r == 90 <==> 13 <= diaMm <= 25
    ensures r == 140 <==> 25 < diaMm
  {
    if diaMm <= 6 then 35
    else if diaMm <= 12 then 55
    else if diaMm <= 25 then 90
    else 140
  }

  /** The largest flow `RecFlowX100` can return: 140 * 65535 / 100. */
  const REC_FLOW_MAX: int := 91749

  /** `recoGetRecFlow_x100`: steel takes the table value; every other material
      scales it by `alFactorX100 / 100` in 64-bit arithmetic, truncating, and is
      raised to at least 1. */
  function RecFlowX100(mat: u8, diaMm: u8, alFactorX100: u16): (r: i32)
    ensures 1 <= r <= REC_FLOW_MAX
    ensures mat == MAT_STEEL ==> r == SteelBaseX100(diaMm)
    ensures mat != MAT_STEEL ==> r == Max(1, SteelBaseX100(diaMm) * alFactorX100 / 100)
  {
    var steel := SteelBaseX100(diaMm);
    if mat == MAT_STEEL then steel
    else
      ScaledBounded(steel, alFactorX100);
      var al := ToI32(steel * alFactorX100 / 100);
      if al < 1 then 1 else al
  }

  /** The 64-bit product never leaves the int32 range once divided by 100,
      so the cast back to int32 is exact. */
  lemma ScaledBounded(steel: int, factor: u16)
    requires 0 <= steel <= 140
    ensures 0 <= steel * factor / 100 <= REC_FLOW_MAX
  {
    assert steel * factor <= 140 * factor <= 140 * 65535 by {
      MulMonotone(steel, 140, factor);
    }
  }

  lemma MulMonotone(a: int, b: int, k: nat)
    requires a <= b
    ensures a * k <= b * k
  {
  }

  /** The steel table never recommends less for a larger cutter. */
  lemma SteelBaseMonotone(d1: u8, d2: u8)
    requires d1 <= d2
    ensures SteelBaseX100(d1) <= SteelBaseX100(d2)
  {
  }

  /** For any material the recommendation does not decrease with the diameter. */
  lemma RecFlowMonotoneInDiameter(mat: u8, d1: u8, d2: u8, alFactorX100: u16)
    requires d1 <= d2
    ensures RecFlowX100(mat, d1, alFactorX100) <= RecFlowX100(mat, d2, alFactorX100)
  {
    var s1, s2 := SteelBaseX100(d1), SteelBaseX100(d2);
    if mat != MAT_STEEL {
      MulMonotone(s1, s2, alFactorX100);
    }
  }

  /** For a non-steel material the recommendation does not decrease with the factor. */
  lemma RecFlowMonotoneInFactor(mat: u8, dia: u8, f1: u16, f2: u16)
    requires f1 <= f2
    ensures RecFlowX100(mat, dia, f1) <= RecFlowX100(mat, dia, f2)
  {
    var s := SteelBaseX100(dia);
    if mat != MAT_STEEL {
      assert s * f1 <= s * f2;
    }
  }

  /** A factor of 1.00 makes aluminium recommend exactly what steel does. */
  lemma UnitFactorIsSteel(dia: u8)
    ensures RecFlowX100(MAT_ALUMINUM, dia, 100) == RecFlowX100(MAT_STEEL, dia, 100)
  {
  }

  /** Steel ignores the aluminium factor. */
  lemma SteelIgnoresFactor(dia: u8, f1: u16, f2: u16)
    ensures RecFlowX100(MAT_STEEL, dia, f1) == RecFlowX100(MAT_STEEL, dia, f2)
  {
  }

  /** The worked examples: a 10 mm cutter gives 0.55 in steel and 0.71 in
      aluminium at factor 1.30. */
  lemma TenMillimetreExamples()
    ensures RecFlowX100(MAT_STEEL, 10, 130) == 55
    ensures RecFlowX100(MAT_ALUMINUM, 10, 130) == 71
  {
  }
}
