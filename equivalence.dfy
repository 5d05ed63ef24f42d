/**
 * Equivalence stage: yearly CO2 and energy savings restated as trees, car
 * kilometres, households and LED bulbs, each a division by a fixed positive rate.
 */
module Equivalence {

  /** CO2 a tree absorbs per year (kg). */
  const KgPerTreePerYear: real := 22.0
  /** CO2 emitted per car kilometre (kg). */
  const KgPerCarKm: real := 0.2
  /** Yearly electricity use of one household (kWh). */
  const KwhPerHousehold: real := 2000.0
  /** Yearly electricity use of one LED bulb (kWh). */
  const KwhPerBulb: real := 10.0

  /** Trees whose yearly uptake matches `kgCo2`; the calculator's guarded division. */
  function TreesEquivalent(kgCo2: real): (trees: real)
    ensures trees * KgPerTreePerYear == kgCo2
    ensures kgCo2 >= 0.0 ==> trees >= 0.0
  {
    if KgPerTreePerYear > 0.0 then kgCo2 / KgPerTreePerYear else 0.0
  }

  /** Car kilometres that emit `kgCo2`; the calculator's guarded division. */
  function CarKmEquivalent(kgCo2: real): (km: real)
    ensures km * KgPerCarKm == kgCo2
    ensures kgCo2 >= 0.0 ==> km >= 0.0
  {
    if KgPerCarKm > 0.0 then kgCo2 / KgPerCarKm else 0.0
  }

  /** Households whose yearly consumption is `kwh`. */
  function HouseholdsEquivalent(kwh: real): (households: real)
    ensures households * KwhPerHousehold == kwh
    ensures kwh >= 0.0 ==> households >= 0.0
  {
    kwh / KwhPerHousehold
  }

  /** LED bulbs lit for a year by `kwh`. */
  function BulbsEquivalent(kwh: real): (bulbs: real)
    ensures bulbs * KwhPerBulb == kwh
    ensures kwh >= 0.0 ==> bulbs >= 0.0
  {
    kwh / KwhPerBulb
  }
}
