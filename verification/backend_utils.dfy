/**
 * `BackendUtils` (backend_api/utils.py): the arithmetic helpers of the web
 * API. The clock read by `calculate_date_range` arrives as `now`, in
 * seconds.
 */
module BackendUtils {
  import opened Common

  // ---------------------------------------------------------------------
  // Date range
  // ---------------------------------------------------------------------

  const SecondsPerDay := 24 * 60 * 60

  datatype DateRange = DateRange(start: int, end: int)

  /** Days covered by a report period: `None` for a period the API does not know. */
  function PeriodDays(period: string): (r: Option<nat>)
    ensures r.Some? <==> period == "week" || period == "month" || period == "year"
  {
    if period == "week" then Some(7)
    else if period == "month" then Some(30)
    else if period == "year" then Some(365)
    else None
  }

  /** `calculate_date_range`: a range ending now, or `None` where the code raises ValueError. */
  function CalculateDateRange(period: string, now: int): (r: Option<DateRange>)
    ensures r.Some? <==> PeriodDays(period).Some?
    ensures r.Some? ==> r.value.end == now && r.value.end - r.value.start == PeriodDays(period).value * SecondsPerDay
  {
    match PeriodDays(period)
    case None => None
    case Some(days) => Some(DateRange(now - days * SecondsPerDay, now))
  }

  /** A week, a month and a year are 7, 30 and 365 days long; anything else is refused. */
  lemma DateRangeLengths(now: int)
    ensures CalculateDateRange("week", now) == Some(DateRange(now - 7 * SecondsPerDay, now))
    ensures CalculateDateRange("month", now) == Some(DateRange(now - 30 * SecondsPerDay, now))
    ensures CalculateDateRange("year", now) == Some(DateRange(now - 365 * SecondsPerDay, now))
    ensures CalculateDateRange("day", now).None? && CalculateDateRange("Week", now).None?
  {
  }

  // ---------------------------------------------------------------------
  // Progress percentage
  // ---------------------------------------------------------------------

  /** `calculate_progress_percentage`: 0 for a non-positive goal, else the share rounded to one decimal. */
  function ProgressPercentage(consumed: real, goal: real): (r: real)
    ensures goal <= 0.0 ==> r == 0.0
    ensures goal > 0.0 ==> Abs(r - consumed / goal * 100.0) <= 0.05
  {
    if goal <= 0.0 then 0.0 else Round1(consumed / goal * 100.0)
  }

  lemma RoundHalfEvenMonotone(x: real, y: real)
    requires x <= y
    ensures RoundHalfEven(x) <= RoundHalfEven(y)
  {
    var fx, fy := x.Floor, y.Floor;
    if fx < fy {
      assert RoundHalfEven(x) <= fx + 1 <= fy <= RoundHalfEven(y);
    }
  }

  /**
   * Eating exactly the goal gives 100%, nothing gives 0%, and eating more
   * never gives a smaller percentage.
   */
  lemma ProgressPercentageFacts(consumed: real, more: real, goal: real)
    requires consumed <= more
    ensures goal > 0.0 ==> ProgressPercentage(goal, goal) == 100.0 && ProgressPercentage(0.0, goal) == 0.0
    ensures ProgressPercentage(consumed, goal) <= ProgressPercentage(more, goal)
    ensures goal > 0.0 && consumed >= 0.0 ==> ProgressPercentage(consumed, goal) >= 0.0
  {
    if goal > 0.0 {
      assert goal / goal == 1.0;
      assert RoundHalfEven(1000.0) == 1000;
      assert RoundHalfEven(0.0) == 0;
      assert consumed / goal <= more / goal;
      RoundHalfEvenMonotone(consumed / goal * 100.0 * 10.0, more / goal * 100.0 * 10.0);
      if consumed >= 0.0 {
        RoundHalfEvenMonotone(0.0, consumed / goal * 100.0 * 10.0);
      }
    }
  }

  // ---------------------------------------------------------------------
  // Macros from ingredients
  // ---------------------------------------------------------------------

  /** An ingredient dictionary: a missing key is `None`. */
  datatype Ingredient = Ingredient(calories: Option<real>, protein: Option<real>, fats: Option<real>, carbs: Option<real>)

  datatype Nutrient = Calories | Protein | Fats | Carbs

  datatype Macros = Macros(calories: real, protein: real, fats: real, carbs: real)

  /** `ing.get(key, 0)`. */
  function Amount(ing: Ingredient, key: Nutrient): real
  {
    match key
    case Calories => GetOr(ing.calories, 0.0)
    case Protein => GetOr(ing.protein, 0.0)
    case Fats => GetOr(ing.fats, 0.0)
    case Carbs => GetOr(ing.carbs, 0.0)
  }

  /** `sum(ing.get(key, 0) for ing in ingredients)`. */
  function SumOf(ingredients: seq<Ingredient>, key: Nutrient): real
  {
    if |ingredients| == 0 then 0.0
    else SumOf(ingredients[..|ingredients| - 1], key) + Amount(ingredients[|ingredients| - 1], key)
  }

  /** `calculate_macros_from_ingredients`: each total rounded to one decimal. */
  function MacrosFromIngredients(ingredients: seq<Ingredient>): (r: Macros)
    ensures Abs(r.calories - SumOf(ingredients, Calories)) <= 0.05
    ensures Abs(r.protein - SumOf(ingredients, Protein)) <= 0.05
    ensures Abs(r.fats - SumOf(ingredients, Fats)) <= 0.05
    ensures Abs(r.carbs - SumOf(ingredients, Carbs)) <= 0.05
  {
    Macros(Round1(SumOf(ingredients, Calories)), Round1(SumOf(ingredients, Protein)),
           Round1(SumOf(ingredients, Fats)), Round1(SumOf(ingredients, Carbs)))
  }

  /** The total over two lists is the sum of their totals. */
  lemma {:induction false} SumOfAppend(xs: seq<Ingredient>, ys: seq<Ingredient>, key: Nutrient)
    ensures SumOf(xs + ys, key) == SumOf(xs, key) + SumOf(ys, key)
    decreases |ys|
  {
    if |ys| == 0 {
      assert xs + ys == xs;
    } else {
      var n := |ys| - 1;
      assert (xs + ys)[..|xs + ys| - 1] == xs + ys[..n];
      SumOfAppend(xs, ys[..n], key);
    }
  }

  /** No ingredients give all zeros, and a missing key counts as 0. */
  lemma MacrosFromIngredientsFacts(xs: seq<Ingredient>, key: Nutrient)
    ensures MacrosFromIngredients([]) == Macros(0.0, 0.0, 0.0, 0.0)
    ensures SumOf(xs + [Ingredient(None, None, None, None)], key) == SumOf(xs, key)
    ensures SumOf([Ingredient(Some(100.0), Some(5.0), None, Some(12.5))], Fats) == 0.0
    ensures SumOf([Ingredient(Some(100.0), Some(5.0), None, Some(12.5))], Carbs) == 12.5
  {
    assert RoundHalfEven(0.0) == 0;
    SumOfAppend(xs, [Ingredient(None, None, None, None)], key);
    var one := [Ingredient(Some(100.0), Some(5.0), None, Some(12.5))];
    assert one[..0] == [];
  }

  // ---------------------------------------------------------------------
  // Nutrition consistency
  // ---------------------------------------------------------------------

  /** Energy from macros at 4, 9 and 4 kcal per gram. */
  function MacroEnergy(protein: real, fats: real, carbs: real): real
  {
    protein * 4.0 + fats * 9.0 + carbs * 4.0
  }

  /** `validate_nutrition_data`: the stated energy within 10% either side of the macro energy. */
  function ValidateNutritionData(calories: real, protein: real, fats: real, carbs: real): bool
  {
    var calculated := MacroEnergy(protein, fats, carbs);
    calculated * (1.0 - 0.10) <= calories <= calculated * (1.0 + 0.10)
  }

  /**
   * For non-negative macro energy, consistent means differing from it by at
   * most a tenth of it; with negative macro energy nothing is consistent.
   */
  lemma ValidateNutritionDataMeaning(calories: real, protein: real, fats: real, carbs: real)
    ensures var energy := MacroEnergy(protein, fats, carbs);
      energy >= 0.0 ==> (ValidateNutritionData(calories, protein, fats, carbs) <==> Abs(calories - energy) <= energy / 10.0)
    ensures MacroEnergy(protein, fats, carbs) < 0.0 ==> !ValidateNutritionData(calories, protein, fats, carbs)
    ensures MacroEnergy(protein, fats, carbs) >= 0.0 ==>
              ValidateNutritionData(MacroEnergy(protein, fats, carbs), protein, fats, carbs)
  {
  }

  /** 20 g protein, 10 g fat, 30 g carbohydrates are 290 kcal: 261 and 319 pass, 260 and 320 do not. */
  lemma ValidateNutritionDataExamples()
    ensures ValidateNutritionData(261.0, 20.0, 10.0, 30.0) && ValidateNutritionData(319.0, 20.0, 10.0, 30.0)
    ensures !ValidateNutritionData(260.0, 20.0, 10.0, 30.0) && !ValidateNutritionData(320.0, 20.0, 10.0, 30.0)
  {
  }
}
