# Cool-roof savings calculator, modelled in Dafny

`rx_calculator.py` is a Streamlit page. It estimates what a reflective ("cool roof")
coating saves on a building each year, and over 20 years. The sidebar supplies:

- the roof area;
- the roof type;
- the roof and wall insulation ("Brak", "XPS-<mm>", "PU-<mm>");
- an air-conditioning efficiency band, or the user's own EER;
- the energy price;
- the grid emission factor.

The page's model block is written as top-level script lines. This project lifts it
into functions over a configuration record, and models each part:

- **Insulation tags** (`Insulation`, `TextParse`). `thickness_from_choice` turns a tag
  into a layer: thickness in metres plus conductivity. The model includes the two
  pieces of Python it relies on, `str.split("-")` and `float(...)` on the thickness
  field. A field that `float` rejects becomes an error value, where Python raises
  ValueError.
- **Thermal stage** (`Thermal`). The roof-type tables give the multiplier and base
  resistance; an unknown label is an error value, where Python raises KeyError. From
  them come the roof and wall total R = Rsi + base + layer + Rse, and the U-values
  1/R shown in the configuration table.
- **Cooling and savings chain** (`Cooling`, `Savings`). This stage covers:
  - the insulation damping factor 1/(1 + 0.12 R) and the 0.98 wall discount;
  - m² to ft²;
  - the Btu reduction;
  - kWh = Btu / (EER · 1000); an EER of 0 is an error value, where Python raises
    ZeroDivisionError;
  - money, kg and t of CO₂, and GJ;
  - the EER presets 9 / 11 / 13.

  `Savings.Compute` is the whole block as one function from `Config` to
  `Result<Metrics, Error>`.
- **Equivalences** (`Equivalence`): trees, car kilometres, households and LED bulbs.
- **20-year series** (`Series`). `np.full_like` and `np.cumsum` are methods that fill
  an array in a loop with a running total. The CSV export's 20-year figures are the
  last cumulative entries.
- **`nice_ceiling`** (`AxisScale`): the y-axis top, which is the least 1, 2, 5 or 10
  × 10^e not below its argument.
- **Payback** (`Payback`): capex over yearly money saved. The value is an `Option`,
  and is absent when nothing is saved.

Every Python `float` is a Dafny `real`, so the arithmetic is exact.

The default configuration has 1000 m², metal roof, no insulation, EER 11, price 0.85
and factor 0.77. For it the code's constants give:

- 1000 × 10.7639 × 5833 = 62,785,828.7 Btu;
- 5707.8 kWh;
- 4851.6 money units;
- 4395.0 kg CO₂.

`Savings.WorkedExample` proves the total and the kWh exactly. It proves the kWh, the
money and the kg each to one decimal place (5707.8…, 4851.6…, 4395.0…).

## Model

| member | source | states |
|---|---|---|
| TextParse.Split | rx_calculator.py:71 | `str.split(sep)` always yields at least one field, and exactly one iff the separator does not occur |
| TextParse.SplitAfterField | rx_calculator.py:71 | splitting `p + sep + t` with separator-free `p` gives `p` followed by the fields of `t` |
| TextParse.UpTo | rx_calculator.py:71 | the first field is a hyphen-free prefix of the text, ended by the separator or by the end of the text |
| TextParse.SplitFirstField | rx_calculator.py:71 | the first field of `split` is that prefix |
| TextParse.JoinSplit | rx_calculator.py:71 | joining the fields of `split` with the separator gives the text back, so no character is lost |
| TextParse.ParseDecimal | rx_calculator.py:71 | `float` on a digits[.digits] field: a parsed value is non-negative; a dot-free field that parses is all digits and gives their decimal value; every non-empty digit string parses; a field with a point that parses has digits on both sides, and its value × 10^(fraction digits) is the number the digits spell with the point removed |
| TextParse.PointValue | rx_calculator.py:71 | the value of `whole.frac` is non-negative, and × 10^(fraction digits) it is the number the digits of `whole` then `frac` spell |
| TextParse.ParseDecimalDotted | rx_calculator.py:71 | every `whole.frac` with digit parts, not both empty, parses, to the value above |
| TextParse.ParseDecimalAccepts | rx_calculator.py:71 | "12.5" parses to 12.5 |
| TextParse.ParseDecimalBareParts | rx_calculator.py:71 | ".5" parses to 0.5 and "3." to 3.0 |
| TextParse.ParseDecimalRejects | rx_calculator.py:71 | "", ".", "1.2.3" and "12a" are rejected, where `float` raises ValueError |
| TextParse.ParseDecimalString | rx_calculator.py:71 | the decimal rendering of any n has no dot and parses back to exactly n |
| Insulation.ThicknessFromChoice | rx_calculator.py:69-77 | "XPS-"/"PU-" tags fail exactly when the millimetre field does not parse; otherwise thickness·1000 is the field's value and λ is 0.034 / 0.025; every other tag gives (0, None); a layer has λ iff the tag has a prefix; every layer is well formed |
| Insulation.MillimetreField | rx_calculator.py:71 | `choice.split("-")[1]` is the text after the first hyphen, up to the next hyphen or the end |
| Insulation.MillimetreFieldAfterPrefix | rx_calculator.py:71-74 | `choice.split("-")[1]` after a prefix is the text up to the next hyphen |
| Insulation.XpsTag | rx_calculator.py:70-72 | "XPS-n" gives exactly (n/1000, 0.034) |
| Insulation.PuTag | rx_calculator.py:73-75 | "PU-n" gives exactly (n/1000, 0.025) |
| Insulation.LayerResistance | rx_calculator.py:82-83 | layer R is ≥ 0, positive iff the thickness is, and then R·λ = t |
| Insulation.ThickerLayerResistsMore | rx_calculator.py:82-83 | for one material, a thicker layer has strictly larger R |
| Thermal.RoofTypeOf | rx_calculator.py:62-63 | the table lookup succeeds exactly for the three sidebar labels, each naming its own roof type |
| Thermal.RoofMultiplier | rx_calculator.py:62 | every roof multiplier lies in [0.95, 1.05] |
| Thermal.RoofBaseResistance | rx_calculator.py:85 | every base resistance lies in [0.17, 0.50] |
| Thermal.RoofTotalResistance | rx_calculator.py:86-88 | roof R minus the layer is Rsi + Rse + base; roof R ≥ 0.14 + base ≥ 0.31 |
| Thermal.WallTotalResistance | rx_calculator.py:86-90 | wall R minus the layer is 0.59, so wall R ≥ 0.59 |
| Thermal.UValue | rx_calculator.py:145-146 | U is positive and U·R = 1 |
| Thermal.UValueDecreasing | rx_calculator.py:145-146 | a larger R gives a strictly smaller U |
| Cooling.InsulFactor | rx_calculator.py:93-94 | the factor lies in (0, 1], equals 1 iff the roof layer R is 0, and times (1 + 0.12 R) is 1 |
| Cooling.InsulFactorDecreasing | rx_calculator.py:94 | the factor strictly decreases as roof layer R grows |
| Cooling.WallFactor | rx_calculator.py:95 | 0.98 iff the wall layer R > 0, 1.00 iff not |
| Cooling.AreaFt2 | rx_calculator.py:97-100 | ft² divided by 10.7639 gives back m² |
| Cooling.ReductionPerFt2 | rx_calculator.py:101-103 | for a positive multiplier, 0 < rate ≤ 5833·mult, with equality iff neither roof nor wall is insulated |
| Cooling.ReductionDecreasesWithRoofInsulation | rx_calculator.py:94-103 | more roof layer R gives a strictly smaller rate |
| Cooling.TotalReductionBtu | rx_calculator.py:104 | total over rate gives back the ft² area; positive for positive area and rate |
| Cooling.GjSaved | rx_calculator.py:98-110 | GJ · 10⁹ = Btu · 1055.06 |
| Equivalence.TreesEquivalent | rx_calculator.py:113-115 | trees · 22 = kg CO₂; non-negative for non-negative kg |
| Equivalence.CarKmEquivalent | rx_calculator.py:114-116 | km · 0.2 = kg CO₂; non-negative for non-negative kg |
| Equivalence.HouseholdsEquivalent | rx_calculator.py:117 | households · 2000 = kWh; non-negative for non-negative kWh |
| Equivalence.BulbsEquivalent | rx_calculator.py:118 | bulbs · 10 = kWh; non-negative for non-negative kWh |
| Savings.DefaultEer | rx_calculator.py:47 | 9 iff the band is "Stary", 11 iff "Standard", 13 iff any other label |
| Savings.Eer | rx_calculator.py:43-47 | the user's EER when the checkbox is on, else one of 9, 11, 13 |
| Savings.KwhSaved | rx_calculator.py:106 | kWh · (EER · 1000) = Btu; positive for positive Btu and EER |
| Savings.Cost | rx_calculator.py:107 | for a non-zero saving, money / kWh is the price; money ≥ 0 for kWh ≥ 0 and price ≥ 0; for kWh > 0, money > 0 iff price > 0 |
| Savings.Co2Kg | rx_calculator.py:108 | for a non-zero saving, kg / kWh is the emission factor; kg ≥ 0 for kWh ≥ 0 and factor ≥ 0; for kWh > 0, kg > 0 iff factor > 0 |
| Savings.TonnesCo2 | rx_calculator.py:109 | t · 1000 = kg |
| Savings.PerFt2 | rx_calculator.py:82-103 | the rate of a roof type and two parsed layers lies in (0, 5833·mult] |
| Savings.Derive | rx_calculator.py:82-118 | the roof and wall U-values are the reciprocals of their R-values |
| Savings.Compute | rx_calculator.py:62-118 | the block fails exactly for an unknown roof type, a roof or wall tag whose thickness does not parse, or EER 0 |
| Savings.ComputeErrorOrder | rx_calculator.py:63-106 | the error names the first failure in script order: roof lookup, roof tag, wall tag, division by EER |
| Savings.DeriveResistances | rx_calculator.py:82-90 | roof R = Rsi + base + layer + Rse ≥ 0.14 + base; wall R = Rsi + 0.45 + layer + Rse; U·R = 1 for both |
| Savings.ComputeSavingsChain | rx_calculator.py:101-103 | every successful run has 0 < rate ≤ 5833 × the multiplier of its roof type |
| Savings.DeriveConversions | rx_calculator.py:106-118 | t·1000 = kg, GJ·10⁹ = Btu·1055.06, and each equivalence times its rate gives back kg or kWh |
| Savings.KwhIncreasing | rx_calculator.py:106 | for positive EER, more Btu gives strictly more kWh |
| Savings.ChainNonNegative | rx_calculator.py:100-108 | positive area, rate and EER give positive kWh; non-negative price and factor give non-negative cost and kg |
| Savings.SavingsNonNegative | rx_calculator.py:100-118 | for area > 0, EER > 0, price ≥ 0, factor ≥ 0: kWh > 0; cost, kg, t, trees, km ≥ 0; households, bulbs > 0 |
| Savings.ChainIncreasesWithArea | rx_calculator.py:100-106 | for a fixed positive rate and EER, kWh strictly increases with area |
| Savings.ScaledOrder | rx_calculator.py:107-108 | more kWh gives strictly more money and CO₂ at a positive price or factor |
| Savings.SavingsIncreaseWithArea | rx_calculator.py:100-108 | with everything else fixed, a larger area still succeeds and saves strictly more kWh, more money for price > 0, more kg for factor > 0 |
| Savings.NoInsulationFullRate | rx_calculator.py:76-77 | untagged roof and wall always succeed (for EER ≠ 0 and a known roof) with the full rate 5833·mult |
| Savings.ThickerRoofLowersRate | rx_calculator.py:82-103 | a thicker roof layer of one material gives a strictly lower rate |
| Savings.ChainIncreasesWithRate | rx_calculator.py:104-106 | on a positive area, a higher rate gives strictly more kWh |
| Savings.ThickerRoofInsulationSavesLess | rx_calculator.py:69-106 | "XPS-n" with a larger n on the roof succeeds and gives a strictly lower rate, and strictly less kWh for area > 0 and EER > 0 |
| Savings.WorkedExample | rx_calculator.py:97-108 | the default configuration: rate 5833, total 1000·10.7639·5833 Btu, kWh = that/11000 in (5707.8, 5707.9), cost in (4851.6, 4851.7), kg in (4395.0, 4395.1) |
| Series.SumOfConstant | rx_calculator.py:122-124 | a constant series of length n totals n · value |
| Series.FullLike | rx_calculator.py:122-123 | `np.full_like` gives n entries, each equal to the value |
| Series.CumSum | rx_calculator.py:124-125 | entry i of `np.cumsum` is the total of the first i + 1 entries |
| Series.CumulativeOfConstant | rx_calculator.py:124-125 | the running total of a constant series at entry i is (i + 1) · value |
| Series.CumulativeDifferences | rx_calculator.py:124-125 | consecutive running totals differ by the series entry |
| Series.LastEntry | rx_calculator.py:274-275 | `cum[-1]` on a non-empty series is one of its entries |
| Series.LastRunningTotal | rx_calculator.py:274-275 | the last entry of a running total is the total of the whole series |
| Series.TwentyYearSeries | rx_calculator.py:121-125 | 20 yearly entries equal to the annual kWh / money saving; cumulative entry i is (i + 1) · annual; the exported totals (rx_calculator.py:274-275) are 20 · annual |
| AxisScale.Pow10 | rx_calculator.py:186 | every power of ten is positive |
| AxisScale.Pow10Le | rx_calculator.py:185-186 | powers of ten are monotone in the exponent |
| AxisScale.Log10Floor | rx_calculator.py:185 | the exponent e of x > 0 satisfies 10^e ≤ x < 10^(e+1) |
| AxisScale.Log10FloorUnique | rx_calculator.py:185 | that exponent is the only one bracketing x |
| AxisScale.Mantissa | rx_calculator.py:186 | `base` lies in [1, 10) and base · 10^e = x |
| AxisScale.NiceStep | rx_calculator.py:187-194 | the pick is one of 1, 2, 5, 10 and, for base ≤ 10, not below base |
| AxisScale.NiceStepLeast | rx_calculator.py:187-194 | no mantissa at or above base is smaller than the pick |
| AxisScale.NiceCeiling | rx_calculator.py:181-195 | 0 for x ≤ 0, never below x otherwise |
| AxisScale.NiceCeilingShape | rx_calculator.py:185-195 | for x > 0 the result is nice · 10^e with nice in {1, 2, 5, 10} and 10^e ≤ x < 10^(e+1) |
| AxisScale.NiceCeilingLeast | rx_calculator.py:181-195 | every c · 10^f with c in {1, 2, 5, 10} and c · 10^f ≥ x is ≥ the result: it is the least such number |
| AxisScale.NiceCeilingMonotone | rx_calculator.py:181-195 | a larger argument never gets a lower result |
| AxisScale.NiceCeilingIdempotent | rx_calculator.py:181-195 | rounding a result again changes nothing |
| AxisScale.NiceCeilingExamples | rx_calculator.py:181-195 | 0 → 0, 1 → 1, 120 → 200, 4500 → 5000 |
| Payback.Capex | rx_calculator.py:254 | capex is non-negative for non-negative unit cost and area |
| Payback.PaybackYears | rx_calculator.py:255-259 | a value exists iff money saved > 0; then years · saved = capex, and years ≥ 0 for capex ≥ 0 |
| Payback.CostProportionalToArea | rx_calculator.py:100-107 | money saved is the area times the saving of one m² |
| Payback.PaybackIndependentOfArea | rx_calculator.py:254-256 | the payback is the unit cost over the saving of one m², whatever the area |
| Payback.PaybackOfRun | rx_calculator.py:254-259 | for a run with area > 0, EER > 0, price ≥ 0: a payback exists iff price > 0, and it is ≥ 0 for unit cost ≥ 0 |

## Left out

- The Streamlit UI (rx_calculator.py:7-59, 128-178, 250-253, 262-263). This covers the widgets, layout, images, tables, KPI boxes and messages. The model takes their values as the fields of `Config`; the widgets' `min_value` bounds are not imposed, so the model also covers inputs the sidebar would refuse.
- Plotly chart construction and the auto-scale / override selection of axis ranges (rx_calculator.py:198-247). This is presentation; only `nice_ceiling` is modelled.
- pandas DataFrames and the CSV encoding and download (rx_calculator.py:264-279). Only the two 20-year figures taken from the cumulative series are modelled (`Series.TwentyYearSeries`).
- The `years` array (`np.arange(1, 21)`, rx_calculator.py:121). It only fixes the series length, `Series.Years`.
- The coating constants TSR, emissivity and SRI (rx_calculator.py:21-24). They are display-only.
- IEEE-754 rounding. All arithmetic is exact `real` arithmetic. `math.log10` and `math.floor` are replaced by `AxisScale.Log10Floor`, the exponent e with 10^e ≤ x < 10^(e+1). Python's floating `log10` can be one off near exact powers of ten.
- TextParse.ParseDecimal: models `float` only for the shapes digits, digits.digits, digits. and .digits. The other forms Python accepts (a sign, surrounding whitespace, exponents, underscores between digits, "inf", "nan", non-ASCII digits) are reported as errors here. Tags built by the sidebar never use them.
- Both roof tables are keyed by the same three labels, so one lookup (`Thermal.RoofTypeOf`) models both KeyErrors (rx_calculator.py:63 and 85).
- Savings.Compute: for a negative EER it computes negative savings exactly as written. Only EER = 0 is an error. The sidebar's EER bounds are not modelled.
