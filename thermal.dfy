/**
 * Thermal-resistance stage: the roof-type tables, total R of the roof and wall
 * assemblies, and the U-value shown for each.
 */
module Thermal {
  import opened Wrappers

  /** The three roof types offered by the sidebar. */
  datatype RoofType = Metal | Concrete | Bitumen

  /** The sidebar labels of the roof types, the keys of both roof tables. */
  const MetalLabel: string := "Blacha (metal)"
  const ConcreteLabel: string := "Beton"
  const BitumenLabel: string := "Papa/bitum"

  /** Interior and exterior surface resistances (m2K/W). */
  const RSi: real := 0.10
  const RSe: real := 0.04
  /** Structural thermal resistance of the bare wall (m2K/W). */
  const RBaseWall: real := 0.45

  /** The roof type a label names; `None` where the table lookup raises KeyError.
      Both roof tables share these three keys. */
  function RoofTypeOf(name: string): (t: Option<RoofType>)
    ensures t == Some(Metal) <==> name == MetalLabel
    ensures t == Some(Concrete) <==> name == ConcreteLabel
    ensures t == Some(Bitumen) <==> name == BitumenLabel
  {
    if name == MetalLabel then Some(Metal)
    else if name == ConcreteLabel then Some(Concrete)
    else if name == BitumenLabel then Some(Bitumen)
    else None
  }

  /** `roof_multipliers`: 1.00 for metal, 0.95 for concrete, 1.05 for bitumen. */
  function RoofMultiplier(t: RoofType): (m: real)
    ensures 0.95 <= m <= 1.05
  {
    match t
    case Metal => 1.00
    case Concrete => 0.95
    case Bitumen => 1.05
  }

  /** Structural resistance of the bare roof (m2K/W): 0.17, 0.50, 0.25. */
  function RoofBaseResistance(t: RoofType): (b: real)
    ensures 0.17 <= b <= 0.50
  {
    match t
    case Metal => 0.17
    case Concrete => 0.50
    case Bitumen => 0.25
  }

  /** Total roof resistance Rsi + base + layer + Rse: the surfaces and the base
      alone give 0.14 + base, and the insulation layer only adds to it. */
  function RoofTotalResistance(t: RoofType, layerR: real): (r: real)
    requires layerR >= 0.0
    ensures r - layerR == RSi + RSe + RoofBaseResistance(t)
    ensures r >= 0.14 + RoofBaseResistance(t) && r >= 0.31
  {
    RSi + RoofBaseResistance(t) + layerR + RSe
  }

  /** Total wall resistance Rsi + 0.45 + layer + Rse, never below 0.59. */
  function WallTotalResistance(layerR: real): (r: real)
    requires layerR >= 0.0
    ensures r >= 0.59
    ensures r - layerR == 0.59
  {
    RSi + RBaseWall + layerR + RSe
  }

  /** U-value of an assembly: the reciprocal of its total resistance. */
  function UValue(totalR: real): (u: real)
    requires totalR > 0.0
    ensures u > 0.0 && u * totalR == 1.0
  {
    1.0 / totalR
  }

  /** A more resistant assembly transmits strictly less heat. */
  lemma UValueDecreasing(r1: real, r2: real)
    requires 0.0 < r1 < r2
    ensures UValue(r2) < UValue(r1)
  {
    var u1, u2 := UValue(r1), UValue(r2);
    assert u1 * r2 > u1 * r1;
    assert u2 * r2 < u1 * r2;
  }
}
