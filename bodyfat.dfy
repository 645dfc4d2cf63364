/**
 * The body fat calculator: the U.S. Navy circumference formulas,
 *   male:   495 / (1.0324 - 0.19077 log10(waist - neck) + 0.15456 log10(height)) - 450
 *   female: 495 / (1.29579 - 0.35004 log10(waist + hip - neck) + 0.221 log10(height)) - 450
 * with a category per gender and the split of the weight into fat and lean
 * mass.  The logarithm and the division can leave the reals (log10 of 0 is
 * -Infinity, of a negative number NaN; 495 / 0 is +Infinity), so the page's
 * numbers are modelled as extended reals without rounding.
 */
module BodyFatCalculator {
  import opened Common
  import opened JsMath

  /** A JavaScript number without rounding: a real, NaN, or an infinity with its sign. */
  datatype Ext = Fin(v: real) | NaN | Inf(positive: bool)

  /** Math.log10 of a parsed field: NaN for a missing or negative argument, -Infinity for 0. */
  function Log10(x: Option<real>, lib: RealLib): (r: Ext)
    ensures r.Fin? <==> x.Some? && x.value > 0.0
    ensures r == Inf(false) <==> x == Some(0.0)
  {
    if x.None? || x.value < 0.0 then NaN
    else if x.value == 0.0 then Inf(false)
    else Fin(lib.log10(x.value))
  }

  /** c0 - c1 * la + c2 * lh, where lh is the logarithm of the height, finite or NaN. */
  function Denominator(c0: real, c1: real, c2: real, la: Ext, lh: Ext): (r: Ext)
    requires c1 > 0.0 && (lh.Fin? || lh.NaN?)
    ensures r.NaN? <==> la.NaN? || lh.NaN?
    ensures la.Inf? && lh.Fin? ==> r == Inf(!la.positive)
    ensures la.Fin? && lh.Fin? ==> r == Fin(c0 - c1 * la.v + c2 * lh.v)
  {
    if la.NaN? || lh.NaN? then NaN
    else if la.Inf? then Inf(!la.positive)
    else Fin(c0 - c1 * la.v + c2 * lh.v)
  }

  /** 495 / d - 450: an infinite denominator gives -450, a zero one +Infinity. */
  function Percent(d: Ext): (r: Ext)
    ensures d.NaN? ==> r.NaN?
    ensures d.Inf? ==> r == Fin(-450.0)
    ensures d == Fin(0.0) ==> r == Inf(true)
    ensures d.Fin? && d.v != 0.0 ==> r.Fin? && (r.v + 450.0) * d.v == 495.0
  {
    match d
    case NaN => NaN
    case Inf(_) => Fin(-450.0)
    case Fin(x) => if x == 0.0 then Inf(true) else Fin(495.0 / x - 450.0)
  }

  /** The body fat percentage for a gender: the male formula for "male", the female one otherwise. */
  function BodyFatPercentage(gender: string, height: Option<real>, neck: Option<real>, waist: Option<real>,
                             hip: Option<real>, lib: RealLib): Ext
    requires height.Some? ==> height.value > 0.0
  {
    var lh := Log10(height, lib);
    if gender == "male" then
      var a := if waist.Some? && neck.Some? then Some(waist.value - neck.value) else None;
      Percent(Denominator(1.0324, 0.19077, 0.15456, Log10(a, lib), lh))
    else
      var a := if waist.Some? && hip.Some? && neck.Some? then Some(waist.value + hip.value - neck.value) else None;
      Percent(Denominator(1.29579, 0.35004, 0.221, Log10(a, lib), lh))
  }

  datatype Category = Category(category: string, color: string)

  /** x < t on a JavaScript number: false for NaN and +Infinity, true for -Infinity. */
  predicate Below(x: Ext, t: real)
  {
    x == Inf(false) || (x.Fin? && x.v < t)
  }

  /** The category chain of each gender; NaN fails every comparison and falls to Obese. */
  function BodyFatCategory(bodyFat: Ext, gender: string): (c: Category)
    ensures bodyFat.NaN? || bodyFat == Inf(true) ==> c.category == "Obese"
    ensures bodyFat.Fin? && gender == "male" ==>
      && (c.category == "Essential Fat" <==> bodyFat.v < 6.0)
      && (c.category == "Athletes" <==> 6.0 <= bodyFat.v < 14.0)
      && (c.category == "Fitness" <==> 14.0 <= bodyFat.v < 18.0)
      && (c.category == "Average" <==> 18.0 <= bodyFat.v < 25.0)
      && (c.category == "Obese" <==> bodyFat.v >= 25.0)
    ensures bodyFat.Fin? && gender != "male" ==>
      && (c.category == "Essential Fat" <==> bodyFat.v < 14.0)
      && (c.category == "Athletes" <==> 14.0 <= bodyFat.v < 21.0)
      && (c.category == "Fitness" <==> 21.0 <= bodyFat.v < 25.0)
      && (c.category == "Average" <==> 25.0 <= bodyFat.v < 32.0)
      && (c.category == "Obese" <==> bodyFat.v >= 32.0)
  {
    if gender == "male" then
      if Below(bodyFat, 6.0) then Category("Essential Fat", "text-blue-600")
      else if Below(bodyFat, 14.0) then Category("Athletes", "text-green-600")
      else if Below(bodyFat, 18.0) then Category("Fitness", "text-green-500")
      else if Below(bodyFat, 25.0) then Category("Average", "text-yellow-600")
      else Category("Obese", "text-red-600")
    else
      if Below(bodyFat, 14.0) then Category("Essential Fat", "text-blue-600")
      else if Below(bodyFat, 21.0) then Category("Athletes", "text-green-600")
      else if Below(bodyFat, 25.0) then Category("Fitness", "text-green-500")
      else if Below(bodyFat, 32.0) then Category("Average", "text-yellow-600")
      else Category("Obese", "text-red-600")
  }

  /** The position of a category from Essential Fat (0) to Obese (4). */
  function Rank(c: Category): nat
  {
    if c.category == "Essential Fat" then 0
    else if c.category == "Athletes" then 1
    else if c.category == "Fitness" then 2
    else if c.category == "Average" then 3
    else 4
  }

  /** A larger percentage never has a lower category. */
  lemma CategoryMonotone(b1: real, b2: real, gender: string)
    requires b1 <= b2
    ensures Rank(BodyFatCategory(Fin(b1), gender)) <= Rank(BodyFatCategory(Fin(b2), gender))
  {
  }

  /** The female thresholds are higher: a percentage never ranks a woman above a man. */
  lemma FemaleRanksLower(b: real)
    ensures Rank(BodyFatCategory(Fin(b), "female")) <= Rank(BodyFatCategory(Fin(b), "male"))
  {
  }

  /** (bodyFat / 100) * weight, for a weight that is above 0 or NaN. */
  function FatMass(bodyFat: Ext, weight: Option<real>): (r: Ext)
    requires weight.Some? ==> weight.value > 0.0
    ensures bodyFat.Fin? && weight.Some? ==> r.Fin? && 100.0 * r.v == bodyFat.v * weight.value
    ensures bodyFat.Inf? && weight.Some? ==> r == bodyFat
    ensures bodyFat.NaN? || weight.None? ==> r.NaN?
  {
    if bodyFat.NaN? || weight.None? then NaN
    else if bodyFat.Inf? then bodyFat
    else Fin((bodyFat.v / 100.0) * weight.value)
  }

  /** weight - fatMass. */
  function LeanMass(weight: Option<real>, fatMass: Ext): (r: Ext)
    ensures fatMass.Fin? && weight.Some? ==> r.Fin? && r.v + fatMass.v == weight.value
    ensures fatMass.Inf? && weight.Some? ==> r == Inf(!fatMass.positive)
    ensures fatMass.NaN? || weight.None? ==> r.NaN?
  {
    if fatMass.NaN? || weight.None? then NaN
    else if fatMass.Inf? then Inf(!fatMass.positive)
    else Fin(weight.value - fatMass.v)
  }

  datatype BodyFatResult = BodyFatResult(bodyFatPercentage: Ext, category: Category, leanBodyMass: Ext, fatMass: Ext)

  /** The guard: a height, weight, neck or waist at or below 0, or a woman's hip at or below 0. */
  predicate Refused(gender: string, height: Option<real>, weight: Option<real>, neck: Option<real>,
                    waist: Option<real>, hip: Option<real>)
  {
    || (height.Some? && height.value <= 0.0)
    || (weight.Some? && weight.value <= 0.0)
    || (neck.Some? && neck.value <= 0.0)
    || (waist.Some? && waist.value <= 0.0)
    || (gender == "female" && hip.Some? && hip.value <= 0.0)
  }

  /** The handler: None when refused; otherwise the percentage, its category and the mass split. */
  function CalculateBodyFat(gender: string, height: Option<real>, weight: Option<real>, neck: Option<real>,
                            waist: Option<real>, hip: Option<real>, lib: RealLib): (r: Option<BodyFatResult>)
    ensures r.None? <==> Refused(gender, height, weight, neck, waist, hip)
    ensures r.Some? ==>
      var res := r.value;
      && res.bodyFatPercentage == BodyFatPercentage(gender, height, neck, waist, hip, lib)
      && res.category == BodyFatCategory(res.bodyFatPercentage, gender)
      && (weight.Some? && res.fatMass.Fin? && res.leanBodyMass.Fin? ==> res.fatMass.v + res.leanBodyMass.v == weight.value)
      && (res.bodyFatPercentage.Fin? && weight.Some? ==>
            res.fatMass.Fin? && 100.0 * res.fatMass.v == res.bodyFatPercentage.v * weight.value)
  {
    if Refused(gender, height, weight, neck, waist, hip) then None
    else
      var bodyFat := BodyFatPercentage(gender, height, neck, waist, hip, lib);
      var fat := FatMass(bodyFat, weight);
      Some(BodyFatResult(bodyFat, BodyFatCategory(bodyFat, gender), LeanMass(weight, fat), fat))
  }

  /** The male result does not depend on the hip field. */
  lemma MaleIgnoresHip(height: Option<real>, weight: Option<real>, neck: Option<real>, waist: Option<real>,
                       hip1: Option<real>, hip2: Option<real>, lib: RealLib)
    ensures CalculateBodyFat("male", height, weight, neck, waist, hip1, lib)
         == CalculateBodyFat("male", height, weight, neck, waist, hip2, lib)
  {
  }

  /**
   * A waist equal to the neck takes log10 of 0 = -Infinity, the denominator
   * becomes +Infinity and the page reports -450% body fat, "Essential Fat",
   * with a negative fat mass.
   */
  lemma WaistEqualsNeck(height: real, weight: real, c: real, hip: Option<real>, lib: RealLib)
    requires height > 0.0 && weight > 0.0 && c > 0.0
    ensures var res := CalculateBodyFat("male", Some(height), Some(weight), Some(c), Some(c), hip, lib).value;
      && res.bodyFatPercentage == Fin(-450.0)
      && res.category.category == "Essential Fat"
      && res.fatMass == Fin(-4.5 * weight)
  {
  }

  /** A waist below the neck takes log10 of a negative number: every figure is NaN and the category Obese. */
  lemma WaistBelowNeck(height: real, weight: real, neck: real, waist: real, hip: Option<real>, lib: RealLib)
    requires height > 0.0 && weight > 0.0 && 0.0 < waist < neck
    ensures var res := CalculateBodyFat("male", Some(height), Some(weight), Some(neck), Some(waist), hip, lib).value;
      && res.bodyFatPercentage.NaN? && res.fatMass.NaN? && res.leanBodyMass.NaN?
      && res.category.category == "Obese"
  {
  }

  /** The page: the chosen gender and the last accepted result. */
  class BodyFatPage {
    var gender: string
    var results: Option<BodyFatResult>

    constructor ()
      ensures gender == "male" && results == None
    {
      gender := "male";
      results := None;
    }

    method SetGender(g: string)
      modifies this
      ensures gender == g && results == old(results)
    {
      gender := g;
    }

    /** The Calculate button; a refused input changes nothing. */
    method Calculate(height: Option<real>, weight: Option<real>, neck: Option<real>, waist: Option<real>,
                     hip: Option<real>, lib: RealLib)
      modifies this
      ensures gender == old(gender)
      ensures var r := CalculateBodyFat(gender, height, weight, neck, waist, hip, lib);
        results == if r.Some? then r else old(results)
    {
      var r := CalculateBodyFat(gender, height, weight, neck, waist, hip, lib);
      if r.Some? {
        results := r;
      }
    }
  }
}
