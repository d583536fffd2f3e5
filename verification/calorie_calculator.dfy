/**
 * The nutrition arithmetic of `CalorieCalculator`
 * (modules/nutrition/calorie_calculator.py): energy from macros and back,
 * energy density, weight from a category's density, component totals, the
 * health score and the advice texts.
 */
module CalorieCalculator {
  import opened Common
  import opened Food

  // ---------------------------------------------------------------------
  // Energy and macros
  // ---------------------------------------------------------------------

  /** `calculate_calories_from_macros`: `int(4p + 9f + 4c)`. */
  function CaloriesFromMacros(protein: real, fat: real, carbs: real): int
  {
    Trunc(MacroCalories(protein, fat, carbs))
  }

  /** Grams of each macro, whole grams cut toward zero. */
  datatype Macros = Macros(proteinG: int, fatG: int, carbsG: int)

  /** `total * (percent / 100)`: the share of the energy given to one macro. */
  function Share(total: real, percent: real): real
  {
    total * (percent / 100.0)
  }

  /** `calculate_macros_from_calories`: each share of the energy turned into grams. */
  function MacrosFromCalories(total: real, proteinPercent: real, fatPercent: real, carbsPercent: real): Macros
  {
    Macros(Trunc(Share(total, proteinPercent) / 4.0), Trunc(Share(total, fatPercent) / 9.0),
           Trunc(Share(total, carbsPercent) / 4.0))
  }

  /** The source's defaults: 30% protein, 30% fat, 40% carbohydrate. */
  function DefaultMacros(total: real): Macros
  {
    MacrosFromCalories(total, 30.0, 30.0, 40.0)
  }

  /** For non-negative macros the whole-kilocalorie energy is the macros' energy cut down. */
  lemma CaloriesFromMacrosBounds(protein: real, fat: real, carbs: real)
    requires protein >= 0.0 && fat >= 0.0 && carbs >= 0.0
    ensures var r := CaloriesFromMacros(protein, fat, carbs);
      0 <= r && r as real <= MacroCalories(protein, fat, carbs) < r as real + 1.0
  {
  }

  /** 30 g protein, 25 g fat and 70 g carbohydrate make 625 kcal. */
  lemma CaloriesFromMacrosExample()
    ensures CaloriesFromMacros(30.0, 25.0, 70.0) == 625
  {
    assert MacroCalories(30.0, 25.0, 70.0) == 625.0;
  }

  /** Truncating grams never gives back more energy than the share they came from. */
  lemma GramsWithinShare(share: real, perGram: real)
    requires share >= 0.0 && perGram > 0.0
    ensures 0 <= Trunc(share / perGram) && Trunc(share / perGram) as real * perGram <= share
  {
    var q := share / perGram;
    assert Trunc(q) as real <= q;
    assert q * perGram == share;
  }

  /**
   * The grams handed out never hold more energy than the shares asked for.
   */
  lemma MacrosWithinBudget(total: real, pp: real, fp: real, cp: real)
    requires total >= 0.0 && pp >= 0.0 && fp >= 0.0 && cp >= 0.0
    ensures var m := MacrosFromCalories(total, pp, fp, cp);
      && m.proteinG >= 0 && m.fatG >= 0 && m.carbsG >= 0
      && MacroCalories(m.proteinG as real, m.fatG as real, m.carbsG as real)
         <= Share(total, pp) + Share(total, fp) + Share(total, cp)
  {
    SharesWithinTotal(total, pp, fp, cp);
    GramsWithinShare(Share(total, pp), 4.0);
    GramsWithinShare(Share(total, fp), 9.0);
    GramsWithinShare(Share(total, cp), 4.0);
  }

  /** The shares are non-negative and, with percentages summing to at most 100, add up to no more than the total. */
  lemma SharesWithinTotal(total: real, pp: real, fp: real, cp: real)
    requires total >= 0.0 && pp >= 0.0 && fp >= 0.0 && cp >= 0.0
    ensures Share(total, pp) >= 0.0 && Share(total, fp) >= 0.0 && Share(total, cp) >= 0.0
    ensures pp + fp + cp <= 100.0 ==> Share(total, pp) + Share(total, fp) + Share(total, cp) <= total
  {
    assert Share(total, pp) + Share(total, fp) + Share(total, cp) == total * ((pp + fp + cp) / 100.0);
  }

  /** Splitting a total and adding the macros back up never exceeds the total. */
  lemma MacrosRoundTrip(total: real)
    requires total >= 0.0
    ensures var m := DefaultMacros(total);
      CaloriesFromMacros(m.proteinG as real, m.fatG as real, m.carbsG as real) as real <= total
  {
    var m := DefaultMacros(total);
    MacrosWithinBudget(total, 30.0, 30.0, 40.0);
    SharesWithinTotal(total, 30.0, 30.0, 40.0);
    CaloriesFromMacrosBounds(m.proteinG as real, m.fatG as real, m.carbsG as real);
  }

  /** 2000 kcal split 30/30/40 is 150 g protein, 66 g fat and 200 g carbohydrate. */
  lemma MacrosExample()
    ensures MacrosFromCalories(2000.0, 30.0, 30.0, 40.0) == Macros(150, 66, 200)
  {
    assert Share(2000.0, 30.0) == 600.0;
    assert Share(2000.0, 40.0) == 800.0;
    assert 600.0 / 9.0 == 66.0 + 2.0 / 3.0;
  }

  // ---------------------------------------------------------------------
  // Density and weight
  // ---------------------------------------------------------------------

  /** `calculate_calories_per_100g`: 0 for no weight, else `calories / weight * 100`. */
  function CaloriesPer100g(total: real, weight: real): real
  {
    if weight <= 0.0 then 0.0 else total / weight * 100.0
  }

  /** The density gives the energy back: `per100g * weight / 100` is the total, for a positive weight. */
  lemma CaloriesPer100gInverse(total: real, weight: real)
    requires weight > 0.0
    ensures CaloriesPer100g(total, weight) * weight / 100.0 == total
  {
  }

  /** 625 kcal in 250 g is 250 kcal per 100 g; no weight gives 0. */
  lemma CaloriesPer100gExamples()
    ensures CaloriesPer100g(625.0, 250.0) == 250.0
    ensures CaloriesPer100g(100.0, 0.0) == 0.0
  {
  }

  /** `CALORIE_DENSITY`: kcal per 100 g by category. */
  const Densities: map<string, real> := map[
    "vegetables" := 30.0, "fruits" := 50.0, "grains" := 350.0, "meat" := 200.0, "fish" := 150.0,
    "dairy" := 100.0, "oils" := 900.0, "sweets" := 400.0, "bread" := 250.0, "pasta" := 350.0,
    "rice" := 130.0, "potatoes" := 80.0, "cheese" := 350.0, "nuts" := 600.0]

  /** `CALORIE_DENSITY.get(category, 200)`. */
  function DensityOf(category: string): (d: real)
    ensures d > 0.0
  {
    if category in Densities then Densities[category] else 200.0
  }

  /** `estimate_weight_from_calories`: `int(calories / density * 100)`. */
  function EstimateWeight(calories: real, category: string): int
  {
    Trunc(calories / DensityOf(category) * 100.0)
  }

  /**
   * The estimate is the largest whole weight whose energy at the category's
   * density does not exceed the calories.
   */
  lemma EstimateWeightBounds(calories: real, category: string)
    requires calories >= 0.0
    ensures var w := EstimateWeight(calories, category) as real;
      var d := DensityOf(category);
      0.0 <= w && w * d / 100.0 <= calories < (w + 1.0) * d / 100.0
  {
    var d := DensityOf(category);
    var x := calories / d * 100.0;
    assert x * d / 100.0 == calories;
  }

  /** 400 kcal of meat is 200 g; 300 kcal of vegetables is 1000 g; an unknown category counts as 200 kcal per 100 g. */
  lemma EstimateWeightExamples()
    ensures EstimateWeight(400.0, "meat") == 200
    ensures EstimateWeight(300.0, "vegetables") == 1000
    ensures EstimateWeight(400.0, "soup") == 200
  {
    assert DensityOf("meat") == 200.0;
    assert DensityOf("vegetables") == 30.0;
    assert "soup" !in Densities;
  }

  // ---------------------------------------------------------------------
  // Component totals
  // ---------------------------------------------------------------------

  /** The dict `calculate_component_totals` returns. */
  datatype Totals = Totals(weightGrams: real, caloriesTotal: real, caloriesPer100g: real,
                           proteinG: real, fatG: real, carbsG: real)

  /** The totals of a component list: field sums, with the density rounded to a tenth. */
  function TotalsOf(cs: seq<Component>): Totals
  {
    var weight := Total(cs, WeightField);
    var calories := Total(cs, CaloriesField);
    Totals(weight, calories, Round1(if weight > 0.0 then CaloriesPer100g(calories, weight) else 0.0),
           Total(cs, ProteinField), Total(cs, FatField), Total(cs, CarbsField))
  }

  /** `calculate_component_totals`: running sums over the components, then the density. */
  method CalculateComponentTotals(components: seq<Component>) returns (totals: Totals)
    ensures totals == TotalsOf(components)
  {
    var weight, calories, protein, fat, carbs := 0.0, 0.0, 0.0, 0.0, 0.0;
    for i := 0 to |components|
      invariant weight == Total(components[..i], WeightField)
      invariant calories == Total(components[..i], CaloriesField)
      invariant protein == Total(components[..i], ProteinField)
      invariant fat == Total(components[..i], FatField)
      invariant carbs == Total(components[..i], CarbsField)
    {
      var c := components[i];
      assert components[..i + 1] == components[..i] + [c];
      TotalAppend(components[..i], c, WeightField);
      TotalAppend(components[..i], c, CaloriesField);
      TotalAppend(components[..i], c, ProteinField);
      TotalAppend(components[..i], c, FatField);
      TotalAppend(components[..i], c, CarbsField);
      weight := weight + GetOr(c.weightG, 0.0);
      calories := calories + GetOr(c.calories, 0.0);
      protein := protein + GetOr(c.proteinG, 0.0);
      fat := fat + GetOr(c.fatG, 0.0);
      carbs := carbs + GetOr(c.carbsG, 0.0);
    }
    assert components[..|components|] == components;
    var per100g := if weight > 0.0 then CaloriesPer100g(calories, weight) else 0.0;
    totals := Totals(weight, calories, Round1(per100g), protein, fat, carbs);
  }

  /** The density of the totals is 0 without weight, else within 0.05 of the exact energy per 100 g. */
  lemma TotalsDensity(cs: seq<Component>)
    ensures var t := TotalsOf(cs);
      && (t.weightGrams <= 0.0 ==> t.caloriesPer100g == 0.0)
      && (t.weightGrams > 0.0 ==> Abs(t.caloriesPer100g - t.caloriesTotal / t.weightGrams * 100.0) <= 0.05)
  {
    assert RoundHalfEven(0.0) == 0;
  }

  /** Appending a component adds its values to every sum. */
  lemma TotalsAppend(cs: seq<Component>, c: Component)
    ensures var t, u := TotalsOf(cs), TotalsOf(cs + [c]);
      && u.weightGrams == t.weightGrams + GetOr(c.weightG, 0.0)
      && u.caloriesTotal == t.caloriesTotal + GetOr(c.calories, 0.0)
      && u.proteinG == t.proteinG + GetOr(c.proteinG, 0.0)
      && u.fatG == t.fatG + GetOr(c.fatG, 0.0)
      && u.carbsG == t.carbsG + GetOr(c.carbsG, 0.0)
  {
    TotalAppend(cs, c, WeightField);
    TotalAppend(cs, c, CaloriesField);
    TotalAppend(cs, c, ProteinField);
    TotalAppend(cs, c, FatField);
    TotalAppend(cs, c, CarbsField);
  }

  /** Dumplings (250 g, 625 kcal, 30/25/70) and sour cream (30 g, 60 kcal, 2/3/2): 280 g, 685 kcal, 32/28/72, about 245 per 100 g. */
  lemma TotalsExample(a: Component, b: Component)
    requires a == Component(None, Some(250.0), Some(625.0), Some(30.0), Some(25.0), Some(70.0), None)
    requires b == Component(None, Some(30.0), Some(60.0), Some(2.0), Some(3.0), Some(2.0), None)
    ensures var t := TotalsOf([a, b]);
      && t.weightGrams == 280.0 && t.caloriesTotal == 685.0
      && t.proteinG == 32.0 && t.fatG == 28.0 && t.carbsG == 72.0
      && 240.0 < t.caloriesPer100g < 250.0
  {
    TotalsAppend([a], b);
    TotalsAppend([], a);
    assert [] + [a] == [a];
    assert [a] + [b] == [a, b];
    TotalsDensity([a, b]);
  }

  // ---------------------------------------------------------------------
  // Health score
  // ---------------------------------------------------------------------

  /** `(grams * kcalPerGram / total) * 100`: a macro's share of the energy in percent. */
  function EnergyPercent(grams: real, kcalPerGram: real, total: real): real
    requires total != 0.0
  {
    grams * kcalPerGram / total * 100.0
  }

  function ProteinPoints(percent: real): int
  {
    if 20.0 <= percent <= 35.0 then 1 else if percent < 15.0 then -1 else 0
  }

  function FatPoints(percent: real): int
  {
    if 20.0 <= percent <= 35.0 then 1 else if percent > 40.0 then -2 else if percent < 15.0 then -1 else 0
  }

  function CarbPoints(percent: real): int
  {
    if 40.0 <= percent <= 60.0 then 1 else if percent > 70.0 then -1 else 0
  }

  /** The score before clamping: 5, adjusted for each macro's share, vegetables and frying. */
  function RawHealthScore(protein: real, fat: real, carbs: real, total: real, hasVegetables: bool, isFried: bool): int
    requires total != 0.0
  {
    5 + ProteinPoints(EnergyPercent(protein, 4.0, total)) + FatPoints(EnergyPercent(fat, 9.0, total))
    + CarbPoints(EnergyPercent(carbs, 4.0, total)) + (if hasVegetables then 2 else 0) - (if isFried then 2 else 0)
  }

  /** `calculate_health_score`: 5 for no energy, else the raw score clamped to [1, 10]. */
  function HealthScore(protein: real, fat: real, carbs: real, total: real, hasVegetables: bool, isFried: bool): int
  {
    if total == 0.0 then 5
    else
      var raw := RawHealthScore(protein, fat, carbs, total, hasVegetables, isFried);
      if raw < 1 then 1 else if raw > 10 then 10 else raw
  }

  /**
   * The score always lies in [1, 10] and is 5 without energy; the raw score
   * already lies in [-1, 10], so only the lower clamp ever acts.
   */
  lemma HealthScoreRange(protein: real, fat: real, carbs: real, total: real, hasVegetables: bool, isFried: bool)
    ensures 1 <= HealthScore(protein, fat, carbs, total, hasVegetables, isFried) <= 10
    ensures total == 0.0 ==> HealthScore(protein, fat, carbs, total, hasVegetables, isFried) == 5
    ensures total != 0.0 ==> -1 <= RawHealthScore(protein, fat, carbs, total, hasVegetables, isFried) <= 10
    ensures total != 0.0 ==> HealthScore(protein, fat, carbs, total, hasVegetables, isFried)
                             == Max(1.0, RawHealthScore(protein, fat, carbs, total, hasVegetables, isFried) as real) as int
  {
  }

  /** Vegetables never lower the score and frying never raises it. */
  lemma HealthScoreMonotone(protein: real, fat: real, carbs: real, total: real, isFried: bool, hasVegetables: bool)
    ensures HealthScore(protein, fat, carbs, total, false, isFried) <= HealthScore(protein, fat, carbs, total, true, isFried)
    ensures HealthScore(protein, fat, carbs, total, hasVegetables, true) <= HealthScore(protein, fat, carbs, total, hasVegetables, false)
  {
  }

  /** A balanced meal with vegetables scores 9; a fatty fried meal scores 1. */
  lemma HealthScoreExamples()
    ensures HealthScore(30.0, 20.0, 50.0, 500.0, true, false) == 9
    ensures HealthScore(10.0, 50.0, 30.0, 700.0, false, true) == 1
  {
    assert EnergyPercent(30.0, 4.0, 500.0) == 24.0;
    assert EnergyPercent(20.0, 9.0, 500.0) == 36.0;
    assert EnergyPercent(50.0, 4.0, 500.0) == 40.0;
    assert EnergyPercent(10.0, 4.0, 700.0) < 15.0;
    assert EnergyPercent(50.0, 9.0, 700.0) > 40.0;
    assert 15.0 < EnergyPercent(30.0, 4.0, 700.0) < 40.0;
  }

  // ---------------------------------------------------------------------
  // Advice
  // ---------------------------------------------------------------------

  const NoData := "Недостаточно данных для рекомендаций"
  const SmallerPortion := "• Уменьши порцию на 20-30%"
  const LessFat := "• Слишком много жиров - выбирай менее жирные варианты"
  const MoreProtein := "• Добавь больше белка (мясо, рыба, яйца)"
  const Vegetables := "• Добавь овощей для сытости"
  const Water := "• Пей воду перед едой"
  const ProteinUp := "• Увеличь количество белка до 30-35%"
  const BiggerPortion := "• Увеличь порцию для набора массы"
  const EatOften := "• Ешь каждые 3-4 часа"
  const SomeProtein := "• Добавь немного белка"
  const FatDown := "• Уменьши количество жиров"
  const Balanced := "• Сбалансированный приём пищи!"

  /** `[line] if c else []`. */
  function If(c: bool, line: string): seq<string>
  {
    if c then [line] else []
  }

  /** The advice lines for a goal, before the fallback. */
  function GoalLines(total: real, protein: real, fat: real, goal: string): seq<string>
    requires total != 0.0
  {
    var pp := EnergyPercent(protein, 4.0, total);
    var fp := EnergyPercent(fat, 9.0, total);
    if goal == "weight_loss" then
      If(total > 600.0, SmallerPortion) + If(fp > 35.0, LessFat) + If(pp < 20.0, MoreProtein) + [Vegetables, Water]
    else if goal == "muscle_gain" then
      If(pp < 25.0, ProteinUp) + If(total < 500.0, BiggerPortion) + [EatOften]
    else
      If(pp < 20.0, SomeProtein) + If(fp > 40.0, FatDown)
  }

  /** `generate_recommendations` as a text. */
  function Recommendations(total: real, protein: real, fat: real, carbs: real, goal: string): string
  {
    if total == 0.0 then NoData
    else
      var lines := GoalLines(total, protein, fat, goal);
      Join(if lines == [] then [Balanced] else lines, "\n")
  }

  /** `generate_recommendations`: the lines appended one by one, then joined. */
  method GenerateRecommendations(total: real, protein: real, fat: real, carbs: real, goal: string) returns (text: string)
    ensures text == Recommendations(total, protein, fat, carbs, goal)
  {
    if total == 0.0 {
      return NoData;
    }
    var pp := EnergyPercent(protein, 4.0, total);
    var fp := EnergyPercent(fat, 9.0, total);
    var lines: seq<string> := [];
    if goal == "weight_loss" {
      if total > 600.0 { lines := lines + [SmallerPortion]; }
      if fp > 35.0 { lines := lines + [LessFat]; }
      if pp < 20.0 { lines := lines + [MoreProtein]; }
      lines := lines + [Vegetables, Water];
    } else if goal == "muscle_gain" {
      if pp < 25.0 { lines := lines + [ProteinUp]; }
      if total < 500.0 { lines := lines + [BiggerPortion]; }
      lines := lines + [EatOften];
    } else {
      if pp < 20.0 { lines := lines + [SomeProtein]; }
      if fp > 40.0 { lines := lines + [FatDown]; }
    }
    assert lines == GoalLines(total, protein, fat, goal);
    if lines == [] {
      lines := lines + [Balanced];
    }
    text := Join(lines, "\n");
  }

  /** The advice is never empty. */
  lemma RecommendationsNonEmpty(total: real, protein: real, fat: real, carbs: real, goal: string)
    ensures Recommendations(total, protein, fat, carbs, goal) != ""
  {
    if total != 0.0 {
      var lines := GoalLines(total, protein, fat, goal);
      var shown := if lines == [] then [Balanced] else lines;
      assert shown[|shown| - 1] != "" by {
        if lines != [] {
          assert lines[|lines| - 1] in {Vegetables, Water, EatOften, SomeProtein, FatDown, SmallerPortion,
                                       LessFat, MoreProtein, ProteinUp, BiggerPortion};
        }
      }
      JoinNonEmpty(shown, "\n", |shown| - 1);
    }
  }

  /**
   * The fallback line is shown exactly for the maintenance branch with
   * enough protein and not too much fat; weight loss always ends with the
   * vegetables and water lines.
   */
  lemma FallbackExactly(total: real, protein: real, fat: real, goal: string)
    requires total != 0.0
    ensures GoalLines(total, protein, fat, goal) == [] <==>
      goal != "weight_loss" && goal != "muscle_gain"
      && EnergyPercent(protein, 4.0, total) >= 20.0 && EnergyPercent(fat, 9.0, total) <= 40.0
    ensures goal == "weight_loss" ==>
      var lines := GoalLines(total, protein, fat, goal);
      |lines| >= 2 && lines[|lines| - 2..] == [Vegetables, Water]
    ensures goal == "weight_loss" && total > 600.0 ==> GoalLines(total, protein, fat, goal)[0] == SmallerPortion
  {
  }

  /** The weight `generate_portion_advice` suggests, when it suggests one. */
  function SuggestedWeight(total: real, weight: int, goal: string): Option<int>
  {
    if goal == "weight_loss" && total > 700.0 then Some(Trunc(weight as real * 0.7))
    else if goal == "muscle_gain" && total < 400.0 then Some(Trunc(weight as real * 1.3))
    else None
  }

  /** `generate_portion_advice`. */
  function PortionAdvice(total: real, weight: int, goal: string): string
  {
    if goal == "weight_loss" then
      if total > 700.0 then
        "Порция большая (" + IntToString(weight) + "г). Попробуй уменьшить до " + IntToString(SuggestedWeight(total, weight, goal).value) + "г"
      else if total > 500.0 then "Нормальная порция. Можешь оставить как есть"
      else "Небольшая порция - хорошо для похудения"
    else if goal == "muscle_gain" then
      if total < 400.0 then "Маленькая порция. Увеличь до " + IntToString(SuggestedWeight(total, weight, goal).value) + "г"
      else "Хорошая порция для набора массы"
    else if 400.0 <= total <= 600.0 then "Оптимальная порция"
    else if total > 600.0 then "Немного большая порция"
    else "Небольшая порция"
  }

  /**
   * A weight is suggested only for a large weight-loss meal (70% of it, no
   * more than the portion) or a small muscle-gain meal (130%, no less), and
   * the advice then names it.
   */
  lemma PortionSuggestion(total: real, weight: int, goal: string)
    ensures SuggestedWeight(total, weight, goal).Some? <==>
      (goal == "weight_loss" && total > 700.0) || (goal == "muscle_gain" && total < 400.0)
    ensures goal == "weight_loss" && total > 700.0 && weight >= 0 ==>
      0 <= SuggestedWeight(total, weight, goal).value <= weight
    ensures goal == "muscle_gain" && total < 400.0 && weight >= 0 ==>
      weight <= SuggestedWeight(total, weight, goal).value
    ensures SuggestedWeight(total, weight, goal).Some? ==>
      Contains(PortionAdvice(total, weight, goal), IntToString(SuggestedWeight(total, weight, goal).value))
  {
    var s := SuggestedWeight(total, weight, goal);
    if s.Some? {
      var t := IntToString(s.value);
      if goal == "weight_loss" {
        var pre := "Порция большая (" + IntToString(weight) + "г). Попробуй уменьшить до ";
        assert PortionAdvice(total, weight, goal) == pre + t + "г";
        ContainsMiddle(pre, t, "г");
      } else {
        assert PortionAdvice(total, weight, goal) == "Маленькая порция. Увеличь до " + t + "г";
        ContainsMiddle("Маленькая порция. Увеличь до ", t, "г");
      }
    }
  }
}
