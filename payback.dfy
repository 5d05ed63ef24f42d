/**
 * The optional simple payback: the coating's cost for the roof area over the
 * money saved per year, produced only when there is a saving to divide by.
 */
module Payback {
  import opened Wrappers
  import opened Cooling
  import opened Savings

  /** Cost of coating the roof: the unit cost per m2 times the area. */
  function Capex(unitCostPerM2: real, areaM2: real): (c: real)
    ensures unitCostPerM2 >= 0.0 && areaM2 >= 0.0 ==> c >= 0.0
  {
    unitCostPerM2 * areaM2
  }

  /** Years until the coating pays for itself; `None` (the warning branch) when the run
      saves no money, so there is never a division by zero. */
  function PaybackYears(capex: real, plnSaved: real): (years: Option<real>)
    ensures years.Some? <==> plnSaved > 0.0
    ensures years.Some? ==> years.value * plnSaved == capex
    ensures years.Some? && capex >= 0.0 ==> years.value >= 0.0
  {
    if plnSaved > 0.0 then Some(capex / plnSaved) else None
  }

  /** Energy, and so money, saved grows in proportion to the area: the saving of an
      area is that area times the saving of one square metre. */
  lemma CostProportionalToArea(area: real, perFt2: real, eer: real, price: real)
    requires eer != 0.0
    ensures Cost(KwhSaved(TotalReductionBtu(area, perFt2), eer), price)
            == area * Cost(KwhSaved(TotalReductionBtu(1.0, perFt2), eer), price)
  {
    var unit := TotalReductionBtu(1.0, perFt2);
    TotalLinear(area, perFt2);
    KwhLinear(area, unit, eer);
    CostLinear(area, KwhSaved(unit, eer), price);
  }

  lemma TotalLinear(area: real, perFt2: real)
    ensures TotalReductionBtu(area, perFt2) == area * TotalReductionBtu(1.0, perFt2)
  {
  }

  lemma KwhLinear(a: real, b: real, eer: real)
    requires eer != 0.0
    ensures KwhSaved(a * b, eer) == a * KwhSaved(b, eer)
  {
  }

  lemma CostLinear(a: real, k: real, price: real)
    ensures Cost(a * k, price) == a * Cost(k, price)
  {
  }

  /** A capex and a saving that both scale with the area give the payback of one
      square metre. */
  lemma PaybackScales(unitCost: real, area: real, perM2: real, saving: real)
    requires area > 0.0 && perM2 > 0.0 && saving == area * perM2
    ensures PaybackYears(Capex(unitCost, area), saving) == Some(unitCost / perM2)
  {
    CancelArea(unitCost, area, perM2);
    var capex := Capex(unitCost, area);
    assert capex / saving == unitCost / perM2;
  }

  lemma CancelArea(u: real, a: real, s: real)
    requires a > 0.0 && s > 0.0
    ensures a * s > 0.0 && (u * a) / (a * s) == u / s
  {
  }

  /** The payback does not depend on the roof size: capex and savings both scale with
      the area, so the years are the unit cost over the saving of one square metre. */
  lemma PaybackIndependentOfArea(area: real, unitCost: real, perFt2: real, eer: real, price: real)
    requires area > 0.0 && eer != 0.0
    requires Cost(KwhSaved(TotalReductionBtu(1.0, perFt2), eer), price) > 0.0
    ensures var perM2 := Cost(KwhSaved(TotalReductionBtu(1.0, perFt2), eer), price);
      PaybackYears(Capex(unitCost, area), Cost(KwhSaved(TotalReductionBtu(area, perFt2), eer), price))
        == Some(unitCost / perM2)
  {
    var perM2 := Cost(KwhSaved(TotalReductionBtu(1.0, perFt2), eer), price);
    CostProportionalToArea(area, perFt2, eer, price);
    PaybackScales(unitCost, area, perM2, Cost(KwhSaved(TotalReductionBtu(area, perFt2), eer), price));
  }

  /** A run with a positive area, EER and price saves money, so a payback exists, and it
      is non-negative for a non-negative unit cost; at a zero price there is none. */
  lemma PaybackOfRun(cfg: Config, unitCost: real)
    requires Compute(cfg).Ok?
    requires cfg.areaM2 > 0.0 && Eer(cfg) > 0.0 && cfg.pricePerKwh >= 0.0
    ensures var years := PaybackYears(Capex(unitCost, cfg.areaM2), Compute(cfg).value.costSaved);
      && (years.Some? <==> cfg.pricePerKwh > 0.0)
      && (years.Some? && unitCost >= 0.0 ==> years.value >= 0.0)
  {
    var m := Compute(cfg).value;
    ComputeSavingsChain(cfg);
    ChainNonNegative(cfg.areaM2, m.reductionPerFt2, Eer(cfg), cfg.pricePerKwh, 0.0);
  }
}
