/**
 * The BMI calculator: weight in kilograms over the square of the height in
 * metres, from metric (centimetres, kilograms) or imperial (feet and inches,
 * pounds) inputs, with the four WHO categories.  A field that does not parse
 * is None; NaN passes the guard, and since NaN fails every comparison of the
 * category chain a NaN BMI is labelled "Obese".
 */
module BmiCalculator {
  import opened Common

  datatype Category = Category(category: string, color: string)

  /** The category chain: below 18.5, below 25, below 30, and the rest. NaN (None) falls to the last case. */
  function BmiCategory(bmi: Option<real>): (c: Category)
    ensures c.category == "Underweight" <==> bmi.Some? && bmi.value < 18.5
    ensures c.category == "Normal weight" <==> bmi.Some? && 18.5 <= bmi.value < 25.0
    ensures c.category == "Overweight" <==> bmi.Some? && 25.0 <= bmi.value < 30.0
    ensures c.category == "Obese" <==> bmi.None? || bmi.value >= 30.0
  {
    if bmi.Some? && bmi.value < 18.5 then Category("Underweight", "text-blue-600")
    else if bmi.Some? && bmi.value < 25.0 then Category("Normal weight", "text-green-600")
    else if bmi.Some? && bmi.value < 30.0 then Category("Overweight", "text-orange-600")
    else Category("Obese", "text-red-600")
  }

  /** The position of a category from Underweight (0) to Obese (3). */
  function Rank(c: Category): nat
  {
    if c.category == "Underweight" then 0
    else if c.category == "Normal weight" then 1
    else if c.category == "Overweight" then 2
    else 3
  }

  /** A larger BMI never has a lower category. */
  lemma CategoryMonotone(b1: real, b2: real)
    requires b1 <= b2
    ensures Rank(BmiCategory(Some(b1))) <= Rank(BmiCategory(Some(b2)))
  {
  }

  /** Every category comes with its own colour. */
  lemma ColorsDistinct(b1: Option<real>, b2: Option<real>)
    ensures BmiCategory(b1).color == BmiCategory(b2).color <==> BmiCategory(b1).category == BmiCategory(b2).category
  {
  }

  /** a * b, NaN when either operand is NaN. */
  function Times(a: Option<real>, b: real): (r: Option<real>)
    ensures r.Some? <==> a.Some?
    ensures r.Some? ==> r.value == a.value * b
  {
    if a.Some? then Some(a.value * b) else None
  }

  /** Height in metres: centimetres / 100, or (feet * 12 + inches) * 0.0254 for imperial. */
  function HeightInMeters(unit: string, height: Option<real>, feet: Option<real>, inches: Option<real>): (r: Option<real>)
    ensures unit == "metric" ==> r == Times(height, 0.01)
    ensures unit != "metric" ==>
      (r.Some? <==> feet.Some? && inches.Some?)
      && (r.Some? ==> r.value == (feet.value * 12.0 + inches.value) * 0.0254)
  {
    if unit == "metric" then
      if height.Some? then Some(height.value / 100.0) else None
    else if feet.Some? && inches.Some? then Some((feet.value * 12.0 + inches.value) * 0.0254)
    else None
  }

  /** Weight in kilograms: as entered, or pounds * 0.453592 for imperial. */
  function WeightInKg(unit: string, weight: Option<real>): (r: Option<real>)
    ensures r.Some? <==> weight.Some?
    ensures r.Some? ==> r.value == if unit == "metric" then weight.value else weight.value * 0.453592
  {
    if unit == "metric" then weight
    else if weight.Some? then Some(weight.value * 0.453592) else None
  }

  /** What the page shows: the BMI (None for NaN) and its category. */
  datatype BmiResult = BmiResult(bmi: Option<real>, category: Category)

  /** weight / height² on numbers. */
  function Quetelet(h: real, w: real): (b: real)
    requires h > 0.0
    ensures b * (h * h) == w
    ensures w > 0.0 ==> b > 0.0
  {
    SquareFacts(h, w);
    w / (h * h)
  }

  lemma SquareFacts(h: real, w: real)
    requires h > 0.0
    ensures h * h > 0.0
    ensures (w / (h * h)) * (h * h) == w
  {
  }

  /** weight / height², NaN when either is NaN. */
  function Bmi(heightInMeters: Option<real>, weightInKg: Option<real>): (r: Option<real>)
    requires heightInMeters.Some? ==> heightInMeters.value > 0.0
    ensures r.Some? <==> heightInMeters.Some? && weightInKg.Some?
    ensures r.Some? ==> r.value == Quetelet(heightInMeters.value, weightInKg.value)
  {
    if heightInMeters.Some? && weightInKg.Some? then
      Some(Quetelet(heightInMeters.value, weightInKg.value))
    else None
  }

  /** The handler: refused when the height or the weight is a number at or below 0. */
  function CalculateBmi(unit: string, height: Option<real>, weight: Option<real>,
                        feet: Option<real>, inches: Option<real>): (r: Option<BmiResult>)
    ensures var h := HeightInMeters(unit, height, feet, inches);
      var w := WeightInKg(unit, weight);
      && (r.None? <==> (h.Some? && h.value <= 0.0) || (w.Some? && w.value <= 0.0))
      && (r.Some? ==> r.value.bmi == Bmi(h, w) && r.value.category == BmiCategory(r.value.bmi))
      && (r.Some? && r.value.bmi.Some? ==> r.value.bmi.value > 0.0)
  {
    var h := HeightInMeters(unit, height, feet, inches);
    var w := WeightInKg(unit, weight);
    if (h.Some? && h.value <= 0.0) || (w.Some? && w.value <= 0.0) then None
    else
      var bmi := Bmi(h, w);
      Some(BmiResult(bmi, BmiCategory(bmi)))
  }

  /**
   * The two unit systems agree: imperial feet, inches and pounds give the
   * result of the metric form for the same height in centimetres (2.54 per
   * inch) and the same weight in kilograms (0.453592 per pound).
   */
  lemma UnitsAgree(feet: real, inches: real, pounds: real, unitName: string)
    requires unitName != "metric"
    ensures CalculateBmi(unitName, None, Some(pounds), Some(feet), Some(inches))
      == CalculateBmi("metric", Some((feet * 12.0 + inches) * 2.54), Some(pounds * 0.453592), None, None)
  {
    assert HeightInMeters(unitName, None, Some(feet), Some(inches))
      == HeightInMeters("metric", Some((feet * 12.0 + inches) * 2.54), None, None);
  }

  /** 180 cm and 81 kg is a BMI of exactly 25: the boundary belongs to Overweight. */
  lemma BoundaryExample()
    ensures CalculateBmi("metric", Some(180.0), Some(81.0), None, None)
      == Some(BmiResult(Some(25.0), Category("Overweight", "text-orange-600")))
  {
    assert HeightInMeters("metric", Some(180.0), None, None) == Some(1.8);
    assert Quetelet(1.8, 81.0) == 81.0 / 3.24;
  }

  /** 175 cm and 70 kg: a BMI of about 22.857, "Normal weight". */
  lemma NormalExample()
    ensures var r := CalculateBmi("metric", Some(175.0), Some(70.0), None, None).value;
      && 22.857 < r.bmi.value < 22.858
      && r.category.category == "Normal weight"
  {
    assert HeightInMeters("metric", Some(175.0), None, None) == Some(1.75);
    assert Quetelet(1.75, 70.0) == 70.0 / 3.0625;
  }

  /** An empty height field gives a NaN BMI, which the category chain labels Obese. */
  lemma EmptyHeightIsObese(weight: real)
    requires weight > 0.0
    ensures CalculateBmi("metric", None, Some(weight), None, None)
      == Some(BmiResult(None, Category("Obese", "text-red-600")))
  {
  }

  /** The page: the unit system and the last accepted result. */
  class BmiPage {
    var unit: string
    var results: Option<BmiResult>

    constructor ()
      ensures unit == "metric" && results == None
    {
      unit := "metric";
      results := None;
    }

    method SetUnit(u: string)
      modifies this
      ensures unit == u && results == old(results)
    {
      unit := u;
    }

    /** The Calculate button; a refused input changes nothing. */
    method Calculate(height: Option<real>, weight: Option<real>, feet: Option<real>, inches: Option<real>)
      modifies this
      ensures unit == old(unit)
      ensures var r := CalculateBmi(unit, height, weight, feet, inches);
        results == if r.Some? then r else old(results)
    {
      var r := CalculateBmi(unit, height, weight, feet, inches);
      if r.Some? {
        results := r;
      }
    }
  }
}
