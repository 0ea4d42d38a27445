/** The emission model of the carbon calculator: the conversion factors, the
    seven monthly/annual inputs an operator supplies, and the formulas that turn
    them into an annual CO2 breakdown (kg). Everything is exact arithmetic over
    `real`; the source computes the same expressions in binary floating point. */
module Footprint {

  /** The five conversion factors the calculator is constructed with. */
  datatype Factors = Factors(
    electricity: real,  // kgCO2 per euro spent on electricity
    gas: real,          // kgCO2 per euro spent on natural gas
    fuel: real,         // kgCO2 per euro spent on transportation fuel
    waste: real,        // kgCO2 per kg of waste
    travel: real        // kgCO2 per litre of fuel
  )

  /** The factors the calculator is initialised with. */
  const DefaultFactors: Factors := Factors(0.0005, 0.0053, 2.32, 0.57, 2.31)

  ghost predicate ValidFactors(f: Factors) {
    f.electricity >= 0.0 && f.gas >= 0.0 && f.fuel >= 0.0 && f.waste >= 0.0 && f.travel >= 0.0
  }

  /** The answers to the seven prompts: monthly bills in euros, monthly waste in
      kg, the recycled share in percent, km travelled per year and litres per
      100 km. */
  datatype Inputs = Inputs(
    electricityBill: real,
    gasBill: real,
    fuelBill: real,
    wasteKg: real,
    recyclePercent: real,
    kmYear: real,
    fuelEfficiency: real
  )

  /** What the input prompt accepts: every answer is a number that is not negative. */
  ghost predicate ValidInputs(i: Inputs) {
    i.electricityBill >= 0.0 && i.gasBill >= 0.0 && i.fuelBill >= 0.0 &&
    i.wasteKg >= 0.0 && i.recyclePercent >= 0.0 &&
    i.kmYear >= 0.0 && i.fuelEfficiency >= 0.0
  }

  /** The dictionary the calculation returns, all in kg of CO2 per year. */
  datatype Breakdown = Breakdown(energy: real, waste: real, travel: real, total: real)

  /** The three bills that make up the energy category. */
  datatype EnergySource = Electricity | Gas | Fuel

  function Bill(i: Inputs, s: EnergySource): real {
    match s
    case Electricity => i.electricityBill
    case Gas => i.gasBill
    case Fuel => i.fuelBill
  }

  function WithBill(i: Inputs, s: EnergySource, v: real): (j: Inputs)
    ensures Bill(j, s) == v
    ensures forall t :: t != s ==> Bill(j, t) == Bill(i, t)
    ensures j.wasteKg == i.wasteKg && j.recyclePercent == i.recyclePercent
    ensures j.kmYear == i.kmYear && j.fuelEfficiency == i.fuelEfficiency
  {
    match s
    case Electricity => i.(electricityBill := v)
    case Gas => i.(gasBill := v)
    case Fuel => i.(fuelBill := v)
  }

  function FactorOf(f: Factors, s: EnergySource): real {
    match s
    case Electricity => f.electricity
    case Gas => f.gas
    case Fuel => f.fuel
  }

  /** Annual CO2 of one bill: its monthly amount times its factor, times 12. */
  function Contribution(i: Inputs, f: Factors, s: EnergySource): real {
    Bill(i, s) * FactorOf(f, s) * 12.0
  }

  /** energy_co2: the three monthly bills weighted by their factors, times 12. */
  function EnergyCO2(i: Inputs, f: Factors): real {
    (i.electricityBill * f.electricity + i.gasBill * f.gas + i.fuelBill * f.fuel) * 12.0
  }

  /** waste_co2: the recycled fraction (percent / 100) is subtracted from the
      per-kg factor, not from the mass; nothing clamps the difference at 0. */
  function WasteCO2(i: Inputs, f: Factors): real {
    i.wasteKg * (f.waste - i.recyclePercent / 100.0) * 12.0
  }

  /** travel_co2: litres burnt per year (km / 100 * l/100km) times the factor. */
  function TravelCO2(i: Inputs, f: Factors): real {
    i.kmYear / 100.0 * i.fuelEfficiency * f.travel
  }

  /** The calculation after the prompts: the three categories and their sum. */
  function CalculateFootprint(i: Inputs, f: Factors): (b: Breakdown)
    ensures b.energy == EnergyCO2(i, f)
    ensures b.waste == WasteCO2(i, f)
    ensures b.travel == TravelCO2(i, f)
    ensures b.total == b.energy + b.waste + b.travel
  {
    var energy := EnergyCO2(i, f);
    var waste := WasteCO2(i, f);
    var travel := TravelCO2(i, f);
    Breakdown(energy, waste, travel, energy + waste + travel)
  }

  // ---------------------------------------------------------------------------
  // Energy

  /** The energy figure is the sum of the three bills' own contributions. */
  lemma EnergyIsSumOfContributions(i: Inputs, f: Factors)
    ensures EnergyCO2(i, f) == Contribution(i, f, Electricity) + Contribution(i, f, Gas) + Contribution(i, f, Fuel)
  {
  }

  /** Non-negative bills and factors give a non-negative energy figure. */
  lemma EnergyNonNegative(i: Inputs, f: Factors)
    requires ValidInputs(i) && ValidFactors(f)
    ensures EnergyCO2(i, f) >= 0.0
  {
  }

  /** Scaling one bill by k scales that bill's contribution by k and leaves the
      energy figure otherwise unchanged: energy is linear in each bill. */
  lemma EnergyLinearInBill(i: Inputs, f: Factors, s: EnergySource, k: real)
    ensures Contribution(WithBill(i, s, k * Bill(i, s)), f, s) == k * Contribution(i, f, s)
    ensures EnergyCO2(WithBill(i, s, k * Bill(i, s)), f)
         == EnergyCO2(i, f) - Contribution(i, f, s) + k * Contribution(i, f, s)
  {
    var j := WithBill(i, s, k * Bill(i, s));
    assert Contribution(j, f, s) == k * Contribution(i, f, s);
    match s
    case Electricity => assert j == i.(electricityBill := k * i.electricityBill);
    case Gas => assert j == i.(gasBill := k * i.gasBill);
    case Fuel => assert j == i.(fuelBill := k * i.fuelBill);
  }

  // ---------------------------------------------------------------------------
  // Waste

  /** With nothing recycled the waste figure is mass times factor times 12. */
  lemma WasteWithoutRecycling(i: Inputs, f: Factors)
    requires i.recyclePercent == 0.0
    ensures WasteCO2(i, f) == i.wasteKg * f.waste * 12.0
  {
  }

  /** A recycled share of exactly 100 times the factor (57 % for the default
      factors) cancels the waste figure, whatever the mass. */
  lemma WasteVanishesAtThreshold(i: Inputs, f: Factors)
    requires i.recyclePercent == 100.0 * f.waste
    ensures WasteCO2(i, f) == 0.0
  {
    assert f.waste - i.recyclePercent / 100.0 == 0.0;
  }

  /** At or below the threshold the waste figure is not negative. */
  lemma WasteNonNegativeUpToThreshold(i: Inputs, f: Factors)
    requires i.wasteKg >= 0.0
    requires i.recyclePercent <= 100.0 * f.waste
    ensures WasteCO2(i, f) >= 0.0
  {
  }

  /** Above the threshold, any positive mass gives a negative waste figure. */
  lemma WasteNegativeAboveThreshold(i: Inputs, f: Factors)
    requires i.wasteKg > 0.0
    requires i.recyclePercent > 100.0 * f.waste
    ensures WasteCO2(i, f) < 0.0
  {
  }

  /** The default factors put the threshold at 57 %. */
  lemma DefaultWasteThreshold(i: Inputs)
    ensures i.recyclePercent == 57.0 ==> WasteCO2(i, DefaultFactors) == 0.0
    ensures i.wasteKg > 0.0 && i.recyclePercent > 57.0 ==> WasteCO2(i, DefaultFactors) < 0.0
    ensures i.wasteKg >= 0.0 && i.recyclePercent <= 57.0 ==> WasteCO2(i, DefaultFactors) >= 0.0
  {
    if i.recyclePercent == 57.0 {
      WasteVanishesAtThreshold(i, DefaultFactors);
    }
    if i.wasteKg > 0.0 && i.recyclePercent > 57.0 {
      WasteNegativeAboveThreshold(i, DefaultFactors);
    }
    if i.wasteKg >= 0.0 && i.recyclePercent <= 57.0 {
      WasteNonNegativeUpToThreshold(i, DefaultFactors);
    }
  }

  /** Scaling the waste mass by k scales the waste figure by k. */
  lemma WasteLinearInMass(i: Inputs, f: Factors, k: real)
    ensures WasteCO2(i.(wasteKg := k * i.wasteKg), f) == k * WasteCO2(i, f)
  {
  }

  /** Each further recycled percent lowers the waste figure by 0.12 times the
      mass: the waste figure is affine in the recycled share. */
  lemma WasteAffineInRecycling(i: Inputs, f: Factors, d: real)
    ensures WasteCO2(i.(recyclePercent := i.recyclePercent + d), f)
         == WasteCO2(i, f) - i.wasteKg * d * 12.0 / 100.0
  {
  }

  // ---------------------------------------------------------------------------
  // Travel

  /** Non-negative distance, consumption and factor give a non-negative travel figure. */
  lemma TravelNonNegative(i: Inputs, f: Factors)
    requires ValidInputs(i) && ValidFactors(f)
    ensures TravelCO2(i, f) >= 0.0
  {
  }

  /** The travel figure is linear in the distance and in the consumption. */
  lemma TravelLinear(i: Inputs, f: Factors, k: real)
    ensures TravelCO2(i.(kmYear := k * i.kmYear), f) == k * TravelCO2(i, f)
    ensures TravelCO2(i.(fuelEfficiency := k * i.fuelEfficiency), f) == k * TravelCO2(i, f)
  {
  }

  // ---------------------------------------------------------------------------
  // The whole breakdown

  /** All-zero answers give an all-zero breakdown, whatever the factors. */
  lemma ZeroInputsGiveZeroBreakdown(f: Factors)
    ensures CalculateFootprint(Inputs(0.0, 0.0, 0.0, 0.0, 0.0, 0.0, 0.0), f) == Breakdown(0.0, 0.0, 0.0, 0.0)
  {
  }

  /** With valid answers and a recycled share up to the threshold, every
      figure and the total are non-negative. */
  lemma BreakdownNonNegative(i: Inputs, f: Factors)
    requires ValidInputs(i) && ValidFactors(f)
    requires i.recyclePercent <= 100.0 * f.waste
    ensures var b := CalculateFootprint(i, f);
      b.energy >= 0.0 && b.waste >= 0.0 && b.travel >= 0.0 && b.total >= 0.0
  {
    EnergyNonNegative(i, f);
    WasteNonNegativeUpToThreshold(i, f);
    TravelNonNegative(i, f);
  }

  /** The office scenario: 100 and 50 euros of electricity and gas, no fuel,
      200 kg of waste half recycled, 10000 km a year at 8 l/100km. */
  lemma OfficeScenario()
    ensures CalculateFootprint(Inputs(100.0, 50.0, 0.0, 200.0, 50.0, 10000.0, 8.0), DefaultFactors)
         == Breakdown(3.78, 168.0, 1848.0, 2019.78)
  {
  }

  /** Only 10 kg of unrecycled waste: 68.4 kg from waste and nothing else. */
  lemma WasteOnlyScenario()
    ensures CalculateFootprint(Inputs(0.0, 0.0, 0.0, 10.0, 0.0, 0.0, 0.0), DefaultFactors)
         == Breakdown(0.0, 68.4, 0.0, 68.4)
  {
    assert WasteCO2(Inputs(0.0, 0.0, 0.0, 10.0, 0.0, 0.0, 0.0), DefaultFactors) == 68.4;
  }
}
