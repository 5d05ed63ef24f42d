/**
 * Cooling-reduction stage: how much cooling load the coating removes per square
 * foot and in total, damped by roof insulation and discounted by wall insulation.
 */
module Cooling {

  /** Damping constant of the insulation factor. */
  const Beta: real := 0.12
  /** Cooling factor applied whenever the wall carries insulation. */
  const WallDiscount: real := 0.98
  /** Square feet per square metre. */
  const Ft2PerM2: real := 10.7639
  /** Joules per Btu. */
  const BtuToJ: real := 1055.06
  /** Empirical yearly reduction of an uninsulated metal roof (Btu/ft2/year). */
  const BaseReductionPerFt2: real := 5833.0

  /** `1 / (1 + beta * R)`: the coating's effect shrinks as the roof insulation grows. */
  function InsulFactor(roofLayerR: real): (f: real)
    requires roofLayerR >= 0.0
    ensures 0.0 < f <= 1.0
    ensures f == 1.0 <==> roofLayerR == 0.0
    ensures f * (1.0 + Beta * roofLayerR) == 1.0
  {
    1.0 / (1.0 + Beta * roofLayerR)
  }

  /** The insulation factor strictly decreases as the roof layer resistance grows. */
  lemma InsulFactorDecreasing(r1: real, r2: real)
    requires 0.0 <= r1 < r2
    ensures InsulFactor(r2) < InsulFactor(r1)
  {
    var d1, d2 := 1.0 + Beta * r1, 1.0 + Beta * r2;
    assert 0.0 < d1 < d2 by { assert Beta * r1 >= 0.0 && Beta * r1 < Beta * r2; }
    ReciprocalDecreasing(d1, d2);
  }

  lemma ReciprocalDecreasing(d1: real, d2: real)
    requires 0.0 < d1 < d2
    ensures 1.0 / d2 < 1.0 / d1
  {
  }

  /** 0.98 exactly when the wall layer has positive resistance, 1.00 otherwise. */
  function WallFactor(wallLayerR: real): (f: real)
    ensures f == WallDiscount <==> wallLayerR > 0.0
    ensures f == 1.0 <==> wallLayerR <= 0.0
  {
    if wallLayerR > 0.0 then WallDiscount else 1.00
  }

  /** Roof area converted from m2 to ft2. */
  function AreaFt2(areaM2: real): (a: real)
    ensures a / Ft2PerM2 == areaM2
  {
    areaM2 * Ft2PerM2
  }

  /** Yearly cooling reduction per ft2: the base rate scaled by the roof multiplier and
      both insulation factors. It never exceeds the uninsulated rate of the roof type, and
      reaches it exactly when neither roof nor wall is insulated. */
  function ReductionPerFt2(roofMult: real, roofLayerR: real, wallLayerR: real): (r: real)
    requires roofLayerR >= 0.0 && wallLayerR >= 0.0
    ensures roofMult > 0.0 ==> 0.0 < r <= BaseReductionPerFt2 * roofMult
    ensures roofMult > 0.0 ==>
              (r == BaseReductionPerFt2 * roofMult <==> roofLayerR == 0.0 && wallLayerR == 0.0)
  {
    var f, w := InsulFactor(roofLayerR), WallFactor(wallLayerR);
    var full := BaseReductionPerFt2 * roofMult;
    assert full * f * w == full * (f * w);
    assert f * w == 1.0 <==> roofLayerR == 0.0 && wallLayerR == 0.0 by {
      if f < 1.0 { assert f * w < 1.0 * w; }
    }
    assert full > 0.0 ==> (full * (f * w) == full <==> f * w == 1.0);
    assert full > 0.0 ==> full * (f * w) <= full * 1.0;
    BaseReductionPerFt2 * roofMult * f * w
  }

  /** With the wall and roof type fixed, more roof resistance means strictly less reduction. */
  lemma ReductionDecreasesWithRoofInsulation(roofMult: real, r1: real, r2: real, wallLayerR: real)
    requires roofMult > 0.0 && 0.0 <= r1 < r2 && wallLayerR >= 0.0
    ensures ReductionPerFt2(roofMult, r2, wallLayerR) < ReductionPerFt2(roofMult, r1, wallLayerR)
  {
    InsulFactorDecreasing(r1, r2);
    var full, w := BaseReductionPerFt2 * roofMult, WallFactor(wallLayerR);
    var f1, f2 := InsulFactor(r1), InsulFactor(r2);
    assert full * f2 < full * f1;
    assert full * f2 * w < full * f1 * w;
  }

  /** Total yearly reduction (Btu) over the whole roof. */
  function TotalReductionBtu(areaM2: real, perFt2: real): (t: real)
    ensures perFt2 != 0.0 ==> t / perFt2 == AreaFt2(areaM2)
    ensures areaM2 > 0.0 && perFt2 > 0.0 ==> t > 0.0
  {
    AreaFt2(areaM2) * perFt2
  }

  /** The total reduction expressed in gigajoules. */
  function GjSaved(totalBtu: real): (gj: real)
    ensures gj * 1000000000.0 == totalBtu * BtuToJ
  {
    (totalBtu * BtuToJ) / 1000000000.0
  }
}
