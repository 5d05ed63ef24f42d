/**
 * Insulation choices of the calculator's sidebar ("Brak", "XPS-50", "PU-80", ...),
 * turned into a layer thickness in metres and a thermal conductivity in W/mK.
 */
module Insulation {
  import opened Wrappers
  import opened TextParse

  /** Thermal conductivity of extruded polystyrene (W/mK). */
  const XpsLambda: real := 0.034
  /** Thermal conductivity of polyurethane foam (W/mK). */
  const PuLambda: real := 0.025

  const XpsPrefix: string := "XPS-"
  const PuPrefix: string := "PU-"

  /** A thickness (m) and the material's conductivity; `None` when there is no material. */
  datatype Layer = Layer(thickness: real, conductivity: Option<real>)

  /** Raised where Python's `float(...)` rejects the thickness field of a tag. */
  datatype TagError = BadThickness(field: string)

  /** What every parsed layer satisfies: a non-negative thickness, a positive
      conductivity when present, and a material whenever the thickness is positive. */
  predicate WellFormed(l: Layer) {
    l.thickness >= 0.0 &&
    (l.conductivity.Some? ==> l.conductivity.value > 0.0) &&
    (l.thickness > 0.0 ==> l.conductivity.Some?)
  }

  /** The millimetre field of a tag, `choice.split("-")[1]`. */
  function MillimetreField(choice: string): (f: string)
    requires '-' in choice
    ensures f == UpTo(choice[|UpTo(choice, '-')| + 1..], '-')
  {
    var p := UpTo(choice, '-');
    var rest := choice[|p| + 1..];
    assert choice == p + ['-'] + rest;
    SplitAfterField(p, '-', rest);
    SplitFirstField(rest, '-');
    Split(choice, '-')[1]
  }

  /** `thickness_from_choice`: "XPS-<mm>" and "PU-<mm>" give (mm/1000, lambda), any
      other tag gives (0, None); a field `float` rejects raises ValueError. */
  function ThicknessFromChoice(choice: string): (r: Result<Layer, TagError>)
    ensures r.Ok? ==> WellFormed(r.value)
    ensures r.Ok? && r.value.conductivity.Some? <==>
              (XpsPrefix <= choice || PuPrefix <= choice) && r.Ok?
    ensures !(XpsPrefix <= choice) && !(PuPrefix <= choice) ==> r == Ok(Layer(0.0, None))
    ensures r.Ok? && XpsPrefix <= choice ==> r.value.conductivity == Some(XpsLambda)
    ensures r.Ok? && !(XpsPrefix <= choice) && PuPrefix <= choice ==> r.value.conductivity == Some(PuLambda)
    ensures XpsPrefix <= choice || PuPrefix <= choice ==>
              '-' in choice && (r.Err? <==> ParseDecimal(MillimetreField(choice)).None?)
    ensures r.Ok? && (XpsPrefix <= choice || PuPrefix <= choice) ==>
              '-' in choice && r.value.thickness * 1000.0 == ParseDecimal(MillimetreField(choice)).value
  {
    if XpsPrefix <= choice then
      assert choice[3] == '-';
      match ParseDecimal(MillimetreField(choice))
      case Some(mm) => Ok(Layer(mm / 1000.0, Some(XpsLambda)))
      case None => Err(BadThickness(MillimetreField(choice)))
    else if PuPrefix <= choice then
      assert choice[2] == '-';
      match ParseDecimal(MillimetreField(choice))
      case Some(mm) => Ok(Layer(mm / 1000.0, Some(PuLambda)))
      case None => Err(BadThickness(MillimetreField(choice)))
    else
      Ok(Layer(0.0, None))
  }

  /** The thickness field of a prefixed tag is the text after the prefix up to the next hyphen. */
  lemma {:induction false} MillimetreFieldAfterPrefix(prefix: string, rest: string)
    requires |prefix| > 0 && prefix[|prefix| - 1] == '-' && '-' !in prefix[..|prefix| - 1]
    ensures '-' in prefix + rest
    ensures MillimetreField(prefix + rest) == UpTo(rest, '-')
  {
    var p := prefix[..|prefix| - 1];
    assert prefix + rest == p + ['-'] + rest;
    assert (prefix + rest)[|prefix| - 1] == '-';
    SplitAfterField(p, '-', rest);
    SplitFirstField(rest, '-');
  }

  /** "XPS-<n>" (n written in decimal) is an n-millimetre polystyrene layer. */
  lemma XpsTag(n: nat)
    ensures ThicknessFromChoice(XpsPrefix + DecimalString(n))
            == Ok(Layer(n as real / 1000.0, Some(XpsLambda)))
  {
    var s := DecimalString(n);
    ParseDecimalString(n);
    assert '-' !in s by { assert forall i :: 0 <= i < |s| ==> IsDigit(s[i]); }
    assert UpTo(s, '-') == s by { UpToWhole(s, '-'); }
    assert "XPS-"[..3] == "XPS";
    MillimetreFieldAfterPrefix(XpsPrefix, s);
    assert XpsPrefix <= XpsPrefix + s;
  }

  /** "PU-<n>" (n written in decimal) is an n-millimetre polyurethane layer. */
  lemma PuTag(n: nat)
    ensures ThicknessFromChoice(PuPrefix + DecimalString(n))
            == Ok(Layer(n as real / 1000.0, Some(PuLambda)))
  {
    var s := DecimalString(n);
    ParseDecimalString(n);
    assert '-' !in s by { assert forall i :: 0 <= i < |s| ==> IsDigit(s[i]); }
    assert UpTo(s, '-') == s by { UpToWhole(s, '-'); }
    assert "PU-"[..2] == "PU";
    MillimetreFieldAfterPrefix(PuPrefix, s);
    assert !(XpsPrefix <= PuPrefix + s) by { assert (PuPrefix + s)[0] == 'P'; }
    assert PuPrefix <= PuPrefix + s;
  }

  /** Resistance of the insulation layer: t / lambda when t > 0, else 0. */
  function LayerResistance(l: Layer): (r: real)
    requires WellFormed(l)
    ensures r >= 0.0
    ensures r > 0.0 <==> l.thickness > 0.0
    ensures l.thickness > 0.0 ==> r * l.conductivity.value == l.thickness
  {
    if l.thickness > 0.0 then l.thickness / l.conductivity.value else 0.0
  }

  /** For one material, a thicker layer resists strictly more. */
  lemma ThickerLayerResistsMore(l1: Layer, l2: Layer)
    requires WellFormed(l1) && WellFormed(l2)
    requires l1.conductivity == l2.conductivity && l1.conductivity.Some?
    requires l1.thickness < l2.thickness
    ensures LayerResistance(l1) < LayerResistance(l2)
  {
    var k := l1.conductivity.value;
    assert l1.thickness / k < l2.thickness / k;
  }
}
