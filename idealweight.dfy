/**
 * The ideal weight calculator: the Robinson, Miller, Devine and Hamwi
 * formulas, each a base weight at five feet plus a fixed amount per inch
 * above it, and the weights of a healthy BMI (18.5 to 24.9) at the height.
 * A height that does not parse is None; it passes the guard as NaN and
 * every figure is NaN.
 */
module IdealWeightCalculator {
  import opened Common
  import BmiCalculator

  /** A linear formula: base kilograms at 60 inches, plus perInch for every inch above. */
  datatype Formula = Formula(base: real, perInch: real)

  /** Weight by a formula at a height in inches. */
  function WeightAt(f: Formula, inches: real): real
  {
    f.base + f.perInch * (inches - 60.0)
  }

  /** The coefficients of each formula for a gender: the male ones for "male", the female ones otherwise. */
  function Robinson(gender: string): Formula { if gender == "male" then Formula(52.0, 1.9) else Formula(49.0, 1.7) }
  function Miller(gender: string): Formula { if gender == "male" then Formula(56.2, 1.41) else Formula(53.1, 1.36) }
  function Devine(gender: string): Formula { if gender == "male" then Formula(50.0, 2.3) else Formula(45.5, 2.3) }
  function Hamwi(gender: string): Formula { if gender == "male" then Formula(48.0, 2.7) else Formula(45.5, 2.2) }

  datatype IdealWeights =
    | Weights(robinson: real, miller: real, devine: real, hamwi: real, minHealthy: real, maxHealthy: real)
    | NaNWeights

  /** Height in centimetres: as entered, or (feet * 12 + inches) * 2.54 for imperial. */
  function HeightInCm(unit: string, height: Option<real>, feet: Option<real>, inches: Option<real>): (r: Option<real>)
    ensures unit == "metric" ==> r == height
    ensures unit != "metric" ==>
      (r.Some? <==> feet.Some? && inches.Some?)
      && (r.Some? ==> r.value == (feet.value * 12.0 + inches.value) * 2.54)
  {
    if unit == "metric" then height
    else if feet.Some? && inches.Some? then Some((feet.value * 12.0 + inches.value) * 2.54)
    else None
  }

  /** A body weight in kilograms whose BMI at a height in metres is the given index. */
  function WeightForBmi(index: real, meters: real): (w: real)
  {
    index * meters * meters
  }

  /**
   * The handler: refused for a height at or below 0 cm; NaN for a height that
   * did not parse; otherwise the four formulas at the height in inches and the
   * healthy range at the height in metres.
   */
  function CalculateIdealWeight(gender: string, unit: string, height: Option<real>,
                                feet: Option<real>, inches: Option<real>): (r: Option<IdealWeights>)
    ensures var cm := HeightInCm(unit, height, feet, inches);
      && (r.None? <==> cm.Some? && cm.value <= 0.0)
      && (r == Some(NaNWeights) <==> cm.None?)
      && (r.Some? && r.value.Weights? ==>
            var hi := cm.value / 2.54;
            && r.value.robinson == WeightAt(Robinson(gender), hi)
            && r.value.miller == WeightAt(Miller(gender), hi)
            && r.value.devine == WeightAt(Devine(gender), hi)
            && r.value.hamwi == WeightAt(Hamwi(gender), hi)
            && r.value.minHealthy == WeightForBmi(18.5, cm.value / 100.0)
            && r.value.maxHealthy == WeightForBmi(24.9, cm.value / 100.0))
  {
    var cm := HeightInCm(unit, height, feet, inches);
    if cm.Some? && cm.value <= 0.0 then None
    else if cm.None? then Some(NaNWeights)
    else
      var heightInInches := cm.value / 2.54;
      var heightInMeters := cm.value / 100.0;
      Some(Weights(WeightAt(Robinson(gender), heightInInches), WeightAt(Miller(gender), heightInInches),
                   WeightAt(Devine(gender), heightInInches), WeightAt(Hamwi(gender), heightInInches),
                   WeightForBmi(18.5, heightInMeters), WeightForBmi(24.9, heightInMeters)))
  }

  /** At five feet (152.4 cm) each formula gives its base weight. */
  lemma FiveFeet(gender: string)
    ensures var r := CalculateIdealWeight(gender, "metric", Some(152.4), None, None).value;
      && r.robinson == Robinson(gender).base && r.miller == Miller(gender).base
      && r.devine == Devine(gender).base && r.hamwi == Hamwi(gender).base
  {
    assert 152.4 / 2.54 == 60.0;
  }

  /** Every formula gives a taller person of the same gender more weight. */
  lemma TallerHeavier(gender: string, h1: real, h2: real)
    requires 0.0 < h1 < h2
    ensures var r1 := CalculateIdealWeight(gender, "metric", Some(h1), None, None).value;
      var r2 := CalculateIdealWeight(gender, "metric", Some(h2), None, None).value;
      && r1.robinson < r2.robinson && r1.miller < r2.miller
      && r1.devine < r2.devine && r1.hamwi < r2.hamwi
  {
    var i1 := h1 / 2.54;
    var i2 := h2 / 2.54;
    assert i1 < i2;
    FormulaIncreasing(Robinson(gender), i1, i2);
    FormulaIncreasing(Miller(gender), i1, i2);
    FormulaIncreasing(Devine(gender), i1, i2);
    FormulaIncreasing(Hamwi(gender), i1, i2);
  }

  lemma FormulaIncreasing(f: Formula, i1: real, i2: real)
    requires f.perInch > 0.0 && i1 < i2
    ensures WeightAt(f, i1) < WeightAt(f, i2)
  {
    assert WeightAt(f, i2) - WeightAt(f, i1) == f.perInch * (i2 - i1);
  }

  /** Devine's female weight is the male weight less 4.5 kg at every height. */
  lemma DevineGap(inches: real)
    ensures WeightAt(Devine("female"), inches) == WeightAt(Devine("male"), inches) - 4.5
  {
  }

  /** From five feet up, every formula gives a man more than a woman of the same height. */
  lemma MaleAboveFemale(inches: real)
    requires inches >= 60.0
    ensures WeightAt(Robinson("male"), inches) > WeightAt(Robinson("female"), inches)
    ensures WeightAt(Miller("male"), inches) > WeightAt(Miller("female"), inches)
    ensures WeightAt(Devine("male"), inches) > WeightAt(Devine("female"), inches)
    ensures WeightAt(Hamwi("male"), inches) > WeightAt(Hamwi("female"), inches)
  {
  }

  /** Imperial input gives the formulas at exactly feet * 12 + inches. */
  lemma ImperialInches(gender: string, unit: string, feet: real, inches: real)
    requires unit != "metric" && feet * 12.0 + inches > 0.0
    ensures var r := CalculateIdealWeight(gender, unit, None, Some(feet), Some(inches)).value;
      r.robinson == WeightAt(Robinson(gender), feet * 12.0 + inches)
  {
    var t := feet * 12.0 + inches;
    assert (t * 2.54) / 2.54 == t;
  }

  /**
   * The healthy range is the range of healthy BMIs: the minimum has BMI
   * exactly 18.5 and the maximum 24.9, both "Normal weight", and the minimum
   * lies below the maximum.
   */
  lemma HealthyRangeIsNormalBmi(m: real)
    requires m > 0.0
    ensures BmiCalculator.Quetelet(m, WeightForBmi(18.5, m)) == 18.5
    ensures BmiCalculator.Quetelet(m, WeightForBmi(24.9, m)) == 24.9
    ensures BmiCalculator.BmiCategory(Some(18.5)).category == "Normal weight"
    ensures BmiCalculator.BmiCategory(Some(24.9)).category == "Normal weight"
    ensures WeightForBmi(18.5, m) < WeightForBmi(24.9, m)
  {
    IndexRecovered(18.5, m);
    IndexRecovered(24.9, m);
    assert WeightForBmi(24.9, m) - WeightForBmi(18.5, m) == 6.4 * (m * m);
  }

  lemma IndexRecovered(index: real, m: real)
    requires m > 0.0
    ensures BmiCalculator.Quetelet(m, WeightForBmi(index, m)) == index
  {
    assert WeightForBmi(index, m) == index * (m * m);
    var b := BmiCalculator.Quetelet(m, index * (m * m));
    Cancel(b, index, m);
  }

  lemma Cancel(x: real, y: real, m: real)
    requires m > 0.0 && x * (m * m) == y * (m * m)
    ensures x == y
  {
    assert (x - y) * (m * m) == 0.0;
  }

  /** The page: gender, unit system and the last accepted result. */
  class IdealWeightPage {
    var gender: string
    var unit: string
    var results: Option<IdealWeights>

    constructor ()
      ensures gender == "male" && unit == "metric" && results == None
    {
      gender, unit, results := "male", "metric", None;
    }

    method SetGender(g: string)
      modifies this
      ensures gender == g && unit == old(unit) && results == old(results)
    {
      gender := g;
    }

    method SetUnit(u: string)
      modifies this
      ensures unit == u && gender == old(gender) && results == old(results)
    {
      unit := u;
    }

    /** The Calculate button; a refused input changes nothing. */
    method Calculate(height: Option<real>, feet: Option<real>, inches: Option<real>)
      modifies this
      ensures gender == old(gender) && unit == old(unit)
      ensures var r := CalculateIdealWeight(gender, unit, height, feet, inches);
        results == if r.Some? then r else old(results)
    {
      var r := CalculateIdealWeight(gender, unit, height, feet, inches);
      if r.Some? {
        results := r;
      }
    }
  }
}
