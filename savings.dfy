/**
 * The calculator's model block lifted into one function from a configuration
 * record to a metrics record: EER selection, thermal resistance, cooling
 * reduction, energy/cost/CO2 savings and equivalences.
 */
module Savings {
  import opened Wrappers
  import opened TextParse
  import opened Insulation
  import opened Thermal
  import opened Cooling
  import opened Equivalence

  /** Everything the sidebar supplies to the model. */
  datatype Config = Config(
    areaM2: real,
    roofType: string,
    roofInsulation: string,
    wallInsulation: string,
    acBand: string,
    customEerOn: bool,
    customEer: real,
    pricePerKwh: real,
    emissionFactor: real)

  /** Everything the model derives from a configuration. */
  datatype Metrics = Metrics(
    roofTotalR: real,
    wallTotalR: real,
    roofU: real,
    wallU: real,
    reductionPerFt2: real,
    totalReductionBtu: real,
    kwhSaved: real,
    costSaved: real,
    kgCo2Saved: real,
    tCo2Saved: real,
    gjSaved: real,
    trees: real,
    carKm: real,
    households: real,
    bulbs: real)

  /** What the model raises instead of producing metrics. */
  datatype Error =
    | UnknownRoofType(roofType: string)     // KeyError in the roof tables
    | BadInsulation(tag: string, cause: TagError)  // ValueError from float()
    | DivisionByZero                        // ZeroDivisionError for EER 0

  const OldBand: string := "Stary"
  const StandardBand: string := "Standard"

  /** The EER preset of an air-conditioning band: 9 for "Stary", 11 for "Standard",
      and 13 for every other label. */
  function DefaultEer(band: string): (eer: real)
    ensures eer == 9.0 <==> band == OldBand
    ensures eer == 11.0 <==> band == StandardBand
    ensures eer == 13.0 <==> band != OldBand && band != StandardBand
  {
    if band == OldBand then 9.0 else if band == StandardBand then 11.0 else 13.0
  }

  /** The EER in force: the user's own value when the checkbox is on, else the band preset. */
  function Eer(cfg: Config): (eer: real)
    ensures cfg.customEerOn ==> eer == cfg.customEer
    ensures !cfg.customEerOn ==> eer in {9.0, 11.0, 13.0}
  {
    if cfg.customEerOn then cfg.customEer else DefaultEer(cfg.acBand)
  }

  /** Energy saved: the Btu reduction divided by EER x 1000. */
  function KwhSaved(totalBtu: real, eer: real): (kwh: real)
    requires eer != 0.0
    ensures kwh * (eer * 1000.0) == totalBtu
    ensures totalBtu > 0.0 && eer > 0.0 ==> kwh > 0.0
  {
    totalBtu / (eer * 1000.0)
  }

  /** Money saved for the energy saved at a price per kWh: the price is the money per
      kWh saved, and a positive saving is worth money exactly at a positive price. */
  function Cost(kwh: real, pricePerKwh: real): (money: real)
    ensures kwh != 0.0 ==> money / kwh == pricePerKwh
    ensures kwh >= 0.0 && pricePerKwh >= 0.0 ==> money >= 0.0
    ensures kwh > 0.0 ==> (money > 0.0 <==> pricePerKwh > 0.0)
  {
    ProductSign(kwh, pricePerKwh);
    kwh * pricePerKwh
  }

  /** CO2 avoided, in kilograms, for the energy saved at an emission factor per kWh: the
      factor is the CO2 per kWh saved, and a positive saving avoids CO2 exactly at a
      positive factor. */
  function Co2Kg(kwh: real, emissionFactor: real): (kg: real)
    ensures kwh != 0.0 ==> kg / kwh == emissionFactor
    ensures kwh >= 0.0 && emissionFactor >= 0.0 ==> kg >= 0.0
    ensures kwh > 0.0 ==> (kg > 0.0 <==> emissionFactor > 0.0)
  {
    ProductSign(kwh, emissionFactor);
    kwh * emissionFactor
  }

  /** The sign facts of a product with one factor non-negative or positive. */
  lemma ProductSign(x: real, c: real)
    ensures x != 0.0 ==> (x * c) / x == c
    ensures x >= 0.0 && c >= 0.0 ==> x * c >= 0.0
    ensures x > 0.0 ==> (x * c > 0.0 <==> c > 0.0)
  {
    if x > 0.0 && c <= 0.0 {
      assert x * c <= 0.0;
    }
  }

  /** CO2 in tonnes from kilograms. */
  function TonnesCo2(kg: real): (t: real)
    ensures t * 1000.0 == kg
  {
    kg / 1000.0
  }

  /** Yearly cooling reduction per ft2 for a roof type and the two parsed layers. */
  function PerFt2(roof: RoofType, roofLayer: Layer, wallLayer: Layer): (p: real)
    requires WellFormed(roofLayer) && WellFormed(wallLayer)
    ensures 0.0 < p <= BaseReductionPerFt2 * RoofMultiplier(roof)
  {
    ReductionPerFt2(RoofMultiplier(roof), LayerResistance(roofLayer), LayerResistance(wallLayer))
  }

  /** The metrics of a configuration whose lookups and tags succeeded: `roof` is the
      looked-up roof type, the layers are the parsed roof and wall insulation. */
  function Derive(cfg: Config, roof: RoofType, roofLayer: Layer, wallLayer: Layer, eer: real): (m: Metrics)
    requires WellFormed(roofLayer) && WellFormed(wallLayer)
    requires eer != 0.0
    ensures m.roofU * m.roofTotalR == 1.0 && m.wallU * m.wallTotalR == 1.0
  {
    var rRoofLayer := LayerResistance(roofLayer);
    var rWallLayer := LayerResistance(wallLayer);
    var roofR := RoofTotalResistance(roof, rRoofLayer);
    var wallR := WallTotalResistance(rWallLayer);
    var perFt2 := PerFt2(roof, roofLayer, wallLayer);
    var totalBtu := TotalReductionBtu(cfg.areaM2, perFt2);
    var kwh := KwhSaved(totalBtu, eer);
    var kg := Co2Kg(kwh, cfg.emissionFactor);
    Metrics(
      roofTotalR := roofR,
      wallTotalR := wallR,
      roofU := UValue(roofR),
      wallU := UValue(wallR),
      reductionPerFt2 := perFt2,
      totalReductionBtu := totalBtu,
      kwhSaved := kwh,
      costSaved := Cost(kwh, cfg.pricePerKwh),
      kgCo2Saved := kg,
      tCo2Saved := TonnesCo2(kg),
      gjSaved := GjSaved(totalBtu),
      trees := TreesEquivalent(kg),
      carKm := CarKmEquivalent(kg),
      households := HouseholdsEquivalent(kwh),
      bulbs := BulbsEquivalent(kwh))
  }

  /** The full model. It fails exactly for an unknown roof type, an insulation tag whose
      thickness does not parse, or a zero EER, in the order the script meets them: the
      roof multiplier lookup, the roof tag, the wall tag, then the division by the EER. */
  function Compute(cfg: Config): (r: Result<Metrics, Error>)
    ensures r.Err? <==>
      RoofTypeOf(cfg.roofType).None? || !TagParses(cfg.roofInsulation) ||
      !TagParses(cfg.wallInsulation) || Eer(cfg) == 0.0
  {
    match RoofTypeOf(cfg.roofType)
    case None => Err(UnknownRoofType(cfg.roofType))
    case Some(roof) =>
      match ThicknessFromChoice(cfg.roofInsulation)
      case Err(e) => Err(BadInsulation(cfg.roofInsulation, e))
      case Ok(roofLayer) =>
        match ThicknessFromChoice(cfg.wallInsulation)
        case Err(e) => Err(BadInsulation(cfg.wallInsulation, e))
        case Ok(wallLayer) =>
          var eer := Eer(cfg);
          if eer == 0.0 then Err(DivisionByZero)
          else Ok(Derive(cfg, roof, roofLayer, wallLayer, eer))
  }

  /** The tag parser accepts `tag`. */
  predicate TagParses(tag: string) {
    ThicknessFromChoice(tag).Ok?
  }

  /** A failing `Compute` names the first failure the script would meet. */
  lemma ComputeErrorOrder(cfg: Config)
    ensures RoofTypeOf(cfg.roofType).None? ==> Compute(cfg) == Err(UnknownRoofType(cfg.roofType))
    ensures RoofTypeOf(cfg.roofType).Some? && !TagParses(cfg.roofInsulation) ==>
      Compute(cfg).Err? && Compute(cfg).error.BadInsulation? && Compute(cfg).error.tag == cfg.roofInsulation
    ensures RoofTypeOf(cfg.roofType).Some? && TagParses(cfg.roofInsulation) && !TagParses(cfg.wallInsulation) ==>
      Compute(cfg).Err? && Compute(cfg).error.BadInsulation? && Compute(cfg).error.tag == cfg.wallInsulation
    ensures (RoofTypeOf(cfg.roofType).Some? && TagParses(cfg.roofInsulation) && TagParses(cfg.wallInsulation) &&
             Eer(cfg) == 0.0) ==> Compute(cfg) == Err(DivisionByZero)
  {
  }

  /** A successful run is `Derive` applied to the looked-up roof type, the parsed
      layers and the EER in force. */
  lemma ComputeIsDerive(cfg: Config)
    requires Compute(cfg).Ok?
    ensures RoofTypeOf(cfg.roofType).Some? && Eer(cfg) != 0.0
    ensures TagParses(cfg.roofInsulation) && TagParses(cfg.wallInsulation)
    ensures Compute(cfg).value == Derive(cfg, RoofTypeOf(cfg.roofType).value,
      ThicknessFromChoice(cfg.roofInsulation).value, ThicknessFromChoice(cfg.wallInsulation).value, Eer(cfg))
  {
  }

  /** The thermal part of a run: the R-values add up the surface, base and layer
      resistances, and each U-value is the reciprocal of its R-value. */
  lemma DeriveResistances(cfg: Config, roof: RoofType, roofLayer: Layer, wallLayer: Layer, eer: real)
    requires WellFormed(roofLayer) && WellFormed(wallLayer) && eer != 0.0
    ensures var m := Derive(cfg, roof, roofLayer, wallLayer, eer);
      && m.roofTotalR == RSi + RoofBaseResistance(roof) + LayerResistance(roofLayer) + RSe
      && m.roofTotalR >= 0.14 + RoofBaseResistance(roof)
      && m.wallTotalR == RSi + RBaseWall + LayerResistance(wallLayer) + RSe
      && m.roofU * m.roofTotalR == 1.0 && m.wallU * m.wallTotalR == 1.0
  {
  }

  /** The cooling and savings part of a run: the per-area reduction is the base rate times
      the roof multiplier and both insulation factors, the total scales it by the area in
      ft2, and the energy, cost and CO2 follow from the total. */
  lemma DeriveSavingsChain(cfg: Config, roof: RoofType, roofLayer: Layer, wallLayer: Layer, eer: real)
    requires WellFormed(roofLayer) && WellFormed(wallLayer) && eer != 0.0
    ensures var m := Derive(cfg, roof, roofLayer, wallLayer, eer);
      && m.reductionPerFt2 == PerFt2(roof, roofLayer, wallLayer)
      && m.reductionPerFt2 == BaseReductionPerFt2 * RoofMultiplier(roof)
           * InsulFactor(LayerResistance(roofLayer)) * WallFactor(LayerResistance(wallLayer))
      && m.totalReductionBtu == TotalReductionBtu(cfg.areaM2, m.reductionPerFt2)
      && m.kwhSaved == KwhSaved(m.totalReductionBtu, eer)
      && m.costSaved == Cost(m.kwhSaved, cfg.pricePerKwh)
      && m.kgCo2Saved == Co2Kg(m.kwhSaved, cfg.emissionFactor)
  {
  }

  /** The savings chain of a successful run, in terms of the configuration alone. */
  lemma ComputeSavingsChain(cfg: Config)
    requires Compute(cfg).Ok?
    ensures var m := Compute(cfg).value;
      && 0.0 < m.reductionPerFt2 <= BaseReductionPerFt2 * RoofMultiplier(RoofTypeOf(cfg.roofType).value)
      && m.kwhSaved == KwhSaved(TotalReductionBtu(cfg.areaM2, m.reductionPerFt2), Eer(cfg))
      && m.costSaved == Cost(m.kwhSaved, cfg.pricePerKwh)
      && m.kgCo2Saved == Co2Kg(m.kwhSaved, cfg.emissionFactor)
  {
    ComputeIsDerive(cfg);
    DeriveSavingsChain(cfg, RoofTypeOf(cfg.roofType).value,
      ThicknessFromChoice(cfg.roofInsulation).value, ThicknessFromChoice(cfg.wallInsulation).value, Eer(cfg));
  }

  /** The derived units of a run convert back to the quantities they come from. */
  lemma DeriveConversions(cfg: Config, roof: RoofType, roofLayer: Layer, wallLayer: Layer, eer: real)
    requires WellFormed(roofLayer) && WellFormed(wallLayer) && eer != 0.0
    ensures var m := Derive(cfg, roof, roofLayer, wallLayer, eer);
      && m.kwhSaved * (eer * 1000.0) == m.totalReductionBtu
      && m.tCo2Saved * 1000.0 == m.kgCo2Saved
      && m.gjSaved * 1000000000.0 == m.totalReductionBtu * BtuToJ
      && m.trees * KgPerTreePerYear == m.kgCo2Saved
      && m.carKm * KgPerCarKm == m.kgCo2Saved
      && m.households * KwhPerHousehold == m.kwhSaved
      && m.bulbs * KwhPerBulb == m.kwhSaved
  {
  }

  lemma ScaleStrict(x: real, y: real, c: real)
    requires x < y && c > 0.0
    ensures x * c < y * c
  {
  }

  /** More energy saved means more money and more CO2 saved, at a positive rate. */
  lemma ScaledOrder(k1: real, k2: real, c: real)
    requires k1 < k2
    ensures c > 0.0 ==> Cost(k1, c) < Cost(k2, c) && Co2Kg(k1, c) < Co2Kg(k2, c)
  {
    if c > 0.0 {
      ScaleStrict(k1, k2, c);
    }
  }

  lemma ScaleNonNegative(x: real, c: real)
    requires x >= 0.0 && c >= 0.0
    ensures x * c >= 0.0
  {
  }

  /** Strict monotonicity of the energy saved in the total reduction, for a fixed positive EER. */
  lemma KwhIncreasing(b1: real, b2: real, eer: real)
    requires b1 < b2 && eer > 0.0
    ensures KwhSaved(b1, eer) < KwhSaved(b2, eer)
  {
    var d := eer * 1000.0;
    assert d > 0.0;
    ReciprocalScaling(b1, b2, d);
  }

  lemma ReciprocalScaling(b1: real, b2: real, d: real)
    requires b1 < b2 && d > 0.0
    ensures b1 / d < b2 / d
  {
  }

  /** For a positive area, per-area reduction and EER the energy saved is positive, and
      its cost and CO2 are non-negative at a non-negative price and emission factor. */
  lemma ChainNonNegative(area: real, perFt2: real, eer: real, price: real, ef: real)
    requires area > 0.0 && perFt2 > 0.0 && eer > 0.0 && price >= 0.0 && ef >= 0.0
    ensures var k := KwhSaved(TotalReductionBtu(area, perFt2), eer);
      k > 0.0 && Cost(k, price) >= 0.0 && Co2Kg(k, ef) >= 0.0
  {
    var k := KwhSaved(TotalReductionBtu(area, perFt2), eer);
    ScaleNonNegative(k, price);
    ScaleNonNegative(k, ef);
  }

  /** For a positive area and EER the energy saved is positive; with a non-negative
      price and emission factor so are the cost and CO2 savings and every equivalence. */
  lemma SavingsNonNegative(cfg: Config)
    requires Compute(cfg).Ok?
    requires cfg.areaM2 > 0.0 && Eer(cfg) > 0.0
    requires cfg.pricePerKwh >= 0.0 && cfg.emissionFactor >= 0.0
    ensures var m := Compute(cfg).value;
      && m.kwhSaved > 0.0 && m.costSaved >= 0.0 && m.kgCo2Saved >= 0.0 && m.tCo2Saved >= 0.0
      && m.trees >= 0.0 && m.carKm >= 0.0 && m.households > 0.0 && m.bulbs > 0.0
  {
    ComputeIsDerive(cfg);
    var roof, rl, wl := RoofTypeOf(cfg.roofType).value,
      ThicknessFromChoice(cfg.roofInsulation).value, ThicknessFromChoice(cfg.wallInsulation).value;
    DeriveSavingsChain(cfg, roof, rl, wl, Eer(cfg));
    DeriveConversions(cfg, roof, rl, wl, Eer(cfg));
    ChainNonNegative(cfg.areaM2, PerFt2(roof, rl, wl), Eer(cfg), cfg.pricePerKwh, cfg.emissionFactor);
  }

  /** For a fixed positive per-area reduction and EER, the energy saved grows strictly
      with the area. */
  lemma ChainIncreasesWithArea(a1: real, a2: real, perFt2: real, eer: real)
    requires a1 < a2 && perFt2 > 0.0 && eer > 0.0
    ensures KwhSaved(TotalReductionBtu(a1, perFt2), eer) < KwhSaved(TotalReductionBtu(a2, perFt2), eer)
  {
    var t1, t2 := TotalReductionBtu(a1, perFt2), TotalReductionBtu(a2, perFt2);
    assert t1 < t2 by {
      assert AreaFt2(a1) < AreaFt2(a2);
      ScaleStrict(AreaFt2(a1), AreaFt2(a2), perFt2);
    }
    KwhIncreasing(t1, t2, eer);
  }

  /** With everything else fixed, a larger roof saves strictly more energy, strictly more
      money at a positive price, and strictly more CO2 at a positive emission factor. */
  lemma SavingsIncreaseWithArea(cfg: Config, largerArea: real)
    requires Compute(cfg).Ok?
    requires cfg.areaM2 < largerArea && Eer(cfg) > 0.0
    ensures Compute(cfg.(areaM2 := largerArea)).Ok?
    ensures var m1, m2 := Compute(cfg).value, Compute(cfg.(areaM2 := largerArea)).value;
      && m1.kwhSaved < m2.kwhSaved
      && (cfg.pricePerKwh > 0.0 ==> m1.costSaved < m2.costSaved)
      && (cfg.emissionFactor > 0.0 ==> m1.kgCo2Saved < m2.kgCo2Saved)
  {
    var cfg2 := cfg.(areaM2 := largerArea);
    ComputeIsDerive(cfg);
    ComputeIsDerive(cfg2);
    var roof, rl, wl := RoofTypeOf(cfg.roofType).value,
      ThicknessFromChoice(cfg.roofInsulation).value, ThicknessFromChoice(cfg.wallInsulation).value;
    DeriveSavingsChain(cfg, roof, rl, wl, Eer(cfg));
    DeriveSavingsChain(cfg2, roof, rl, wl, Eer(cfg));
    var m1, m2 := Compute(cfg).value, Compute(cfg2).value;
    ChainIncreasesWithArea(cfg.areaM2, largerArea, PerFt2(roof, rl, wl), Eer(cfg));
    ScaledOrder(m1.kwhSaved, m2.kwhSaved, cfg.pricePerKwh);
    ScaledOrder(m1.kwhSaved, m2.kwhSaved, cfg.emissionFactor);
  }

  /** A roof and wall without insulation (tags such as "Brak") get the full rate of
      the roof type: 5833 Btu/ft2 times its multiplier. */
  lemma NoInsulationFullRate(cfg: Config)
    requires RoofTypeOf(cfg.roofType).Some? && Eer(cfg) != 0.0
    requires !(XpsPrefix <= cfg.roofInsulation) && !(PuPrefix <= cfg.roofInsulation)
    requires !(XpsPrefix <= cfg.wallInsulation) && !(PuPrefix <= cfg.wallInsulation)
    ensures Compute(cfg).Ok?
    ensures Compute(cfg).value.reductionPerFt2
            == BaseReductionPerFt2 * RoofMultiplier(RoofTypeOf(cfg.roofType).value)
  {
    ComputeIsDerive(cfg);
    DeriveSavingsChain(cfg, RoofTypeOf(cfg.roofType).value, Layer(0.0, None), Layer(0.0, None), Eer(cfg));
  }

  /** Thicker insulation of one material on the roof strictly lowers the reduction per ft2. */
  lemma ThickerRoofLowersRate(roof: RoofType, l1: Layer, l2: Layer, wallLayer: Layer)
    requires WellFormed(l1) && WellFormed(l2) && WellFormed(wallLayer)
    requires l1.conductivity == l2.conductivity && l1.conductivity.Some?
    requires l1.thickness < l2.thickness
    ensures PerFt2(roof, l2, wallLayer) < PerFt2(roof, l1, wallLayer)
  {
    ThickerLayerResistsMore(l1, l2);
    ReductionDecreasesWithRoofInsulation(RoofMultiplier(roof), LayerResistance(l1), LayerResistance(l2),
      LayerResistance(wallLayer));
  }

  /** A smaller positive per-area reduction saves strictly less energy on a positive area. */
  lemma ChainIncreasesWithRate(area: real, p1: real, p2: real, eer: real)
    requires area > 0.0 && p1 < p2 && eer > 0.0
    ensures KwhSaved(TotalReductionBtu(area, p1), eer) < KwhSaved(TotalReductionBtu(area, p2), eer)
  {
    var a := AreaFt2(area);
    ScaleStrict(p1, p2, a);
    assert TotalReductionBtu(area, p1) == p1 * a && TotalReductionBtu(area, p2) == p2 * a;
    KwhIncreasing(TotalReductionBtu(area, p1), TotalReductionBtu(area, p2), eer);
  }

  /** Thicker polystyrene on the roof ("XPS-<n>" with a larger n, same roof type, wall
      and EER) strictly lowers the reduction per ft2, and with a positive area and EER
      the energy saved. */
  lemma ThickerRoofInsulationSavesLess(cfg: Config, mm1: nat, mm2: nat)
    requires RoofTypeOf(cfg.roofType).Some? && TagParses(cfg.wallInsulation) && Eer(cfg) != 0.0
    requires mm1 < mm2
    ensures var c1 := cfg.(roofInsulation := XpsPrefix + DecimalString(mm1));
            var c2 := cfg.(roofInsulation := XpsPrefix + DecimalString(mm2));
      && Compute(c1).Ok? && Compute(c2).Ok?
      && Compute(c2).value.reductionPerFt2 < Compute(c1).value.reductionPerFt2
      && (cfg.areaM2 > 0.0 && Eer(cfg) > 0.0 ==> Compute(c2).value.kwhSaved < Compute(c1).value.kwhSaved)
  {
    var c1 := cfg.(roofInsulation := XpsPrefix + DecimalString(mm1));
    var c2 := cfg.(roofInsulation := XpsPrefix + DecimalString(mm2));
    XpsTag(mm1);
    XpsTag(mm2);
    assert Compute(c1).Ok? && Compute(c2).Ok?;
    ComputeIsDerive(c1);
    ComputeIsDerive(c2);
    var roof, wl := RoofTypeOf(cfg.roofType).value, ThicknessFromChoice(cfg.wallInsulation).value;
    var l1, l2 := ThicknessFromChoice(c1.roofInsulation).value, ThicknessFromChoice(c2.roofInsulation).value;
    DeriveSavingsChain(c1, roof, l1, wl, Eer(cfg));
    DeriveSavingsChain(c2, roof, l2, wl, Eer(cfg));
    ThickerRoofLowersRate(roof, l1, l2, wl);
    if cfg.areaM2 > 0.0 && Eer(cfg) > 0.0 {
      ChainIncreasesWithRate(cfg.areaM2, PerFt2(roof, l2, wl), PerFt2(roof, l1, wl), Eer(cfg));
    }
  }

  /** The default sidebar: 1000 m2 of metal roof, no insulation, the "Standard" band. */
  const ExampleConfig: Config :=
    Config(1000.0, MetalLabel, "Brak", "Brak", StandardBand, false, 11.0, 0.85, 0.77)

  /** The default configuration saves 1000 x 10.7639 x 5833 Btu, that over 11000 kWh
      (about 5708), and the cost and CO2 that follow from the default price and factor. */
  lemma WorkedExample()
    ensures Compute(ExampleConfig).Ok?
    ensures var m := Compute(ExampleConfig).value;
      && m.reductionPerFt2 == 5833.0
      && m.totalReductionBtu == 1000.0 * 10.7639 * 5833.0
      && m.kwhSaved == 1000.0 * 10.7639 * 5833.0 / 11000.0
      && 5707.8 < m.kwhSaved < 5707.9
      && 4851.6 < m.costSaved < 4851.7
      && 4395.0 < m.kgCo2Saved < 4395.1
  {
    assert ExampleConfig.roofInsulation[0] == 'B';
    NoInsulationFullRate(ExampleConfig);
    ComputeIsDerive(ExampleConfig);
    DeriveSavingsChain(ExampleConfig, Metal, Layer(0.0, None), Layer(0.0, None), 11.0);
    var m := Compute(ExampleConfig).value;
    assert m.totalReductionBtu == 62785828.7;
    assert m.kwhSaved == 62785828.7 / 11000.0;
  }
}
