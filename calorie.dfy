/**
 * The calorie calculator: the Mifflin-St Jeor basal metabolic rate, the
 * daily energy expenditure for an activity level, and the intake for a
 * weight goal.  An age, height or weight that does not parse is None; it
 * passes the guard as NaN, as does an activity level with no multiplier,
 * and the figures computed from it are NaN.
 */
module CalorieCalculator {
  import opened Common

  /** Basal metabolic rate: 10·weight + 6.25·height - 5·age, plus 5 for "male" and less 161 otherwise. */
  function Bmr(gender: string, weight: real, height: real, age: real): (r: real)
    ensures gender == "male" ==> r == 10.0 * weight + 6.25 * height - 5.0 * age + 5.0
    ensures gender != "male" ==> r == 10.0 * weight + 6.25 * height - 5.0 * age - 161.0
  {
    var base := 10.0 * weight + 6.25 * height - 5.0 * age;
    if gender == "male" then base + 5.0 else base - 161.0
  }

  /** The activity multipliers of the page. */
  const ActivityMultipliers: map<string, real> :=
    map["sedentary" := 1.2, "light" := 1.375, "moderate" := 1.55, "active" := 1.725, "very_active" := 1.9]

  /** The activity levels from least to most active. */
  const ActivityLevels: seq<string> := ["sedentary", "light", "moderate", "active", "very_active"]

  /** The multiplier for a level; a level without one reads undefined, and the product is NaN. */
  function Multiplier(activityLevel: string): (r: Option<real>)
    ensures r.Some? <==> activityLevel in ActivityLevels
    ensures r.Some? ==> 1.2 <= r.value <= 1.9
  {
    if activityLevel in ActivityMultipliers then Some(ActivityMultipliers[activityLevel]) else None
  }

  /** Each level's multiplier exceeds the one before. */
  lemma MultipliersIncrease(i: nat, j: nat)
    requires i < j < |ActivityLevels|
    ensures Multiplier(ActivityLevels[i]).value < Multiplier(ActivityLevels[j]).value
  {
  }

  /** The switch over goals: the change to the daily calories and its description; "maintain" and any other goal keep both defaults. */
  function GoalAdjustment(goal: string): (r: (real, string))
    ensures goal == "lose_slow" ==> r == (-250.0, "Lose 0.5 lbs per week")
    ensures goal == "lose_fast" ==> r == (-500.0, "Lose 1 lb per week")
    ensures goal == "gain_slow" ==> r == (250.0, "Gain 0.5 lbs per week")
    ensures goal == "gain_fast" ==> r == (500.0, "Gain 1 lb per week")
    ensures goal !in {"lose_slow", "lose_fast", "gain_slow", "gain_fast"} ==> r == (0.0, "Maintain current weight")
  {
    match goal
    case "lose_slow" => (-250.0, "Lose 0.5 lbs per week")
    case "lose_fast" => (-500.0, "Lose 1 lb per week")
    case "gain_slow" => (250.0, "Gain 0.5 lbs per week")
    case "gain_fast" => (500.0, "Gain 1 lb per week")
    case _ => (0.0, "Maintain current weight")
  }

  /**
   * The handler's goal section: goalCalories starts at tdee and the switch
   * reassigns it with the description.  NaN (None) stays NaN.
   */
  method ApplyGoal(goal: string, tdee: Option<real>) returns (goalCalories: Option<real>, goalDescription: string)
    ensures goalDescription == GoalAdjustment(goal).1
    ensures goalCalories.Some? <==> tdee.Some?
    ensures goalCalories.Some? ==> goalCalories.value == tdee.value + GoalAdjustment(goal).0
  {
    goalCalories := tdee;
    goalDescription := "Maintain current weight";
    if goal == "lose_slow" {
      goalCalories := if tdee.Some? then Some(tdee.value - 250.0) else None;
      goalDescription := "Lose 0.5 lbs per week";
    } else if goal == "lose_fast" {
      goalCalories := if tdee.Some? then Some(tdee.value - 500.0) else None;
      goalDescription := "Lose 1 lb per week";
    } else if goal == "gain_slow" {
      goalCalories := if tdee.Some? then Some(tdee.value + 250.0) else None;
      goalDescription := "Gain 0.5 lbs per week";
    } else if goal == "gain_fast" {
      goalCalories := if tdee.Some? then Some(tdee.value + 500.0) else None;
      goalDescription := "Gain 1 lb per week";
    }
  }

  datatype CalorieResult = CalorieResult(bmr: Option<real>, tdee: Option<real>, goalCalories: Option<real>,
                                         goalDescription: string)

  /**
   * The handler: refused when the age, height or weight is a number at or
   * below 0; otherwise BMR, TDEE = BMR · multiplier and the goal intake.
   */
  function CalculateCalories(gender: string, age: Option<real>, height: Option<real>, weight: Option<real>,
                             activityLevel: string, goal: string): (r: Option<CalorieResult>)
    ensures r.None? <==>
      (age.Some? && age.value <= 0.0) || (height.Some? && height.value <= 0.0) || (weight.Some? && weight.value <= 0.0)
    ensures r.Some? ==>
      && (r.value.bmr.Some? <==> age.Some? && height.Some? && weight.Some?)
      && (r.value.tdee.Some? <==> r.value.bmr.Some? && activityLevel in ActivityLevels)
      && (r.value.goalCalories.Some? <==> r.value.tdee.Some?)
      && (r.value.bmr.Some? ==> r.value.bmr.value == Bmr(gender, weight.value, height.value, age.value))
      && (r.value.tdee.Some? ==> r.value.tdee.value == r.value.bmr.value * Multiplier(activityLevel).value)
      && (r.value.goalCalories.Some? ==> r.value.goalCalories.value == r.value.tdee.value + GoalAdjustment(goal).0)
      && r.value.goalDescription == GoalAdjustment(goal).1
  {
    if (age.Some? && age.value <= 0.0) || (height.Some? && height.value <= 0.0) || (weight.Some? && weight.value <= 0.0)
    then None
    else
      var bmr := if age.Some? && height.Some? && weight.Some? then Some(Bmr(gender, weight.value, height.value, age.value)) else None;
      var tdee := Tdee(bmr, activityLevel);
      var adjust := GoalAdjustment(goal);
      var goalCalories := if tdee.Some? then Some(tdee.value + adjust.0) else None;
      Some(CalorieResult(bmr, tdee, goalCalories, adjust.1))
  }

  /** The daily expenditure: BMR times the level's multiplier, NaN when either is missing. */
  function Tdee(bmr: Option<real>, activityLevel: string): (r: Option<real>)
    ensures r.Some? <==> bmr.Some? && activityLevel in ActivityLevels
    ensures r.Some? ==> r.value == bmr.value * Multiplier(activityLevel).value
  {
    var m := Multiplier(activityLevel);
    if bmr.Some? && m.Some? then Some(bmr.value * m.value) else None
  }

  /** The handler's steps, taken one at a time, give the result of CalculateCalories. */
  lemma CalculatedInSteps(gender: string, age: Option<real>, height: Option<real>, weight: Option<real>,
                          activityLevel: string, goal: string, bmr: Option<real>, tdee: Option<real>,
                          goalCalories: Option<real>, goalDescription: string)
    requires !((age.Some? && age.value <= 0.0) || (height.Some? && height.value <= 0.0) || (weight.Some? && weight.value <= 0.0))
    requires bmr == if age.Some? && height.Some? && weight.Some? then Some(Bmr(gender, weight.value, height.value, age.value)) else None
    requires tdee == Tdee(bmr, activityLevel)
    requires goalDescription == GoalAdjustment(goal).1
    requires goalCalories.Some? <==> tdee.Some?
    requires goalCalories.Some? ==> goalCalories.value == tdee.value + GoalAdjustment(goal).0
    ensures CalculateCalories(gender, age, height, weight, activityLevel, goal)
      == Some(CalorieResult(bmr, tdee, goalCalories, goalDescription))
  {
    assert goalCalories == if tdee.Some? then Some(tdee.value + GoalAdjustment(goal).0) else None;
  }

  /** For the same body, a man's BMR exceeds a woman's by 166 kcal. */
  lemma GenderGap(weight: real, height: real, age: real)
    ensures Bmr("male", weight, height, age) - Bmr("female", weight, height, age) == 166.0
  {
  }

  /** One more kilogram adds 10 kcal, one more centimetre 6.25, one more year takes 5 away. */
  lemma BmrSlopes(gender: string, weight: real, height: real, age: real)
    ensures Bmr(gender, weight + 1.0, height, age) == Bmr(gender, weight, height, age) + 10.0
    ensures Bmr(gender, weight, height + 1.0, age) == Bmr(gender, weight, height, age) + 6.25
    ensures Bmr(gender, weight, height, age + 1.0) == Bmr(gender, weight, height, age) - 5.0
  {
  }

  /** With a positive BMR, a more active level has a higher daily expenditure. */
  lemma MoreActiveHigherTdee(gender: string, age: real, height: real, weight: real, i: nat, j: nat, goal: string)
    requires age > 0.0 && height > 0.0 && weight > 0.0 && i < j < |ActivityLevels|
    requires Bmr(gender, weight, height, age) > 0.0
    ensures var lo := CalculateCalories(gender, Some(age), Some(height), Some(weight), ActivityLevels[i], goal).value;
      var hi := CalculateCalories(gender, Some(age), Some(height), Some(weight), ActivityLevels[j], goal).value;
      lo.tdee.value < hi.tdee.value
  {
    MultipliersIncrease(i, j);
    ScaledUp(Bmr(gender, weight, height, age), Multiplier(ActivityLevels[i]).value, Multiplier(ActivityLevels[j]).value);
  }

  lemma ScaledUp(b: real, lo: real, hi: real)
    requires b > 0.0 && lo < hi
    ensures b * lo < b * hi
  {
    assert b * hi - b * lo == b * (hi - lo);
  }

  /** A losing goal is below the expenditure and a gaining goal above it. */
  lemma GoalDirection(goal: string, tdee: real)
    ensures goal in {"lose_slow", "lose_fast"} ==> tdee + GoalAdjustment(goal).0 < tdee
    ensures goal in {"gain_slow", "gain_fast"} ==> tdee + GoalAdjustment(goal).0 > tdee
  {
  }

  /** A 30-year-old man of 180 cm and 80 kg: BMR 1780, sedentary expenditure 2136, slow loss 1886. */
  lemma Example()
    ensures CalculateCalories("male", Some(30.0), Some(180.0), Some(80.0), "sedentary", "lose_slow")
      == Some(CalorieResult(Some(1780.0), Some(2136.0), Some(1886.0), "Lose 0.5 lbs per week"))
  {
  }

  /** An activity level without a multiplier leaves the BMR and makes the rest NaN. */
  lemma UnknownActivity(gender: string, age: real, height: real, weight: real, level: string, goal: string)
    requires age > 0.0 && height > 0.0 && weight > 0.0 && level !in ActivityLevels
    ensures var r := CalculateCalories(gender, Some(age), Some(height), Some(weight), level, goal).value;
      r.bmr.Some? && r.tdee.None? && r.goalCalories.None?
  {
  }

  /** The page: gender, activity level, goal and the last accepted result. */
  class CaloriePage {
    var gender: string
    var activityLevel: string
    var goal: string
    var results: Option<CalorieResult>

    constructor ()
      ensures gender == "male" && activityLevel == "sedentary" && goal == "maintain" && results == None
    {
      gender, activityLevel, goal, results := "male", "sedentary", "maintain", None;
    }

    method SetGender(g: string)
      modifies this
      ensures gender == g && activityLevel == old(activityLevel) && goal == old(goal) && results == old(results)
    {
      gender := g;
    }

    method SetActivityLevel(level: string)
      modifies this
      ensures activityLevel == level && gender == old(gender) && goal == old(goal) && results == old(results)
    {
      activityLevel := level;
    }

    method SetGoal(g: string)
      modifies this
      ensures goal == g && gender == old(gender) && activityLevel == old(activityLevel) && results == old(results)
    {
      goal := g;
    }

    /** The Calculate button: the guard, then BMR, TDEE and the goal switch. A refused input changes nothing. */
    method Calculate(age: Option<real>, height: Option<real>, weight: Option<real>)
      modifies this
      ensures gender == old(gender) && activityLevel == old(activityLevel) && goal == old(goal)
      ensures var r := CalculateCalories(gender, age, height, weight, activityLevel, goal);
        results == if r.Some? then r else old(results)
    {
      if (age.Some? && age.value <= 0.0) || (height.Some? && height.value <= 0.0) || (weight.Some? && weight.value <= 0.0) {
        return;
      }
      var bmr := if age.Some? && height.Some? && weight.Some? then Some(Bmr(gender, weight.value, height.value, age.value)) else None;
      var tdee := Tdee(bmr, activityLevel);
      var goalCalories, goalDescription := ApplyGoal(goal, tdee);
      CalculatedInSteps(gender, age, height, weight, activityLevel, goal, bmr, tdee, goalCalories, goalDescription);
      results := Some(CalorieResult(bmr, tdee, goalCalories, goalDescription));
    }
  }
}
