/**
 * The stand-alone `FoodAnalysisValidator` of validator.py: an object whose
 * `warnings` list every check appends to, and whose `validate` adds the
 * collected warnings to the analysis dictionary it is given, removing
 * duplicates. Warnings are kept as values; their wording, which
 * interpolates formatted numbers, is the parameter `render`.
 */
module Validator {
  import opened Common
  import opened Food
  import CalorieCalculator

  datatype Macro = Protein | Fat | Carbs

  /** What a check can report, with the numbers its text shows. */
  datatype Warning =
    | LowCalories(calories: real, minimum: int)
    | MacroMismatch(stated: real, calculated: real)
    | LowDensity(density: real)
    | HighDensity(density: real)
    | LowShare(macro: Macro, percent: real)
    | HighShare(macro: Macro, percent: real)
    | NoComponents
    | MissingBread

  /** `MIN_CALORIES`: the least energy expected per kind of meal. */
  const MinCalories: map<string, int> := map["breakfast" := 200, "lunch" := 400, "dinner" := 300, "snack" := 100]

  /** `REALISTIC_RATIOS`: the share of energy, in percent, each macro should have. */
  function RealisticRange(m: Macro): (int, int)
  {
    match m
    case Protein => (10, 35)
    case Fat => (20, 40)
    case Carbs => (40, 65)
  }

  function If(c: bool, w: Warning): seq<Warning>
  {
    if c then [w] else []
  }

  function CaloriesOf(data: Analysis): real
  {
    GetOr(data.caloriesTotal, 0.0)
  }

  // ---------------------------------------------------------------------
  // What each check appends
  // ---------------------------------------------------------------------

  /** `_check_minimum_calories`: every meal is taken to be a lunch. */
  function MinimumCaloriesWarnings(data: Analysis): seq<Warning>
  {
    var minimum := MinCalories["lunch"];
    If(CaloriesOf(data) < minimum as real, LowCalories(CaloriesOf(data), minimum))
  }

  /** `_check_macros_consistency`: the stated energy against 4p + 9f + 4c, with 15% tolerance. */
  function MacrosConsistencyWarnings(data: Analysis): seq<Warning>
  {
    var total := CaloriesOf(data);
    var calculated := MacroCalories(GetOr(data.proteinG, 0.0), GetOr(data.fatG, 0.0), GetOr(data.carbsG, 0.0));
    If(Abs(total - calculated) > total * 0.15, MacroMismatch(total, calculated))
  }

  /** `_check_calorie_density`. */
  function CalorieDensityWarnings(data: Analysis): seq<Warning>
  {
    var density := GetOr(data.caloriesPer100g, 0.0);
    if density < 50.0 then [LowDensity(density)] else If(density > 400.0, HighDensity(density))
  }

  /** One macro's share against its realistic range: too low, too high, or nothing. */
  function ShareWarnings(m: Macro, percent: real): (r: seq<Warning>)
    ensures |r| <= 1
  {
    var range := RealisticRange(m);
    if percent < range.0 as real then [LowShare(m, percent)] else If(percent > range.1 as real, HighShare(m, percent))
  }

  /** `_check_macro_ratios`: skipped for no energy, else one verdict per macro. */
  function MacroRatioWarnings(data: Analysis): seq<Warning>
  {
    var total := CaloriesOf(data);
    if total == 0.0 then []
    else
      ShareWarnings(Protein, CalorieCalculator.EnergyPercent(GetOr(data.proteinG, 0.0), 4.0, total))
      + ShareWarnings(Fat, CalorieCalculator.EnergyPercent(GetOr(data.fatG, 0.0), 9.0, total))
      + ShareWarnings(Carbs, CalorieCalculator.EnergyPercent(GetOr(data.carbsG, 0.0), 4.0, total))
  }

  /** A component whose lower-cased name mentions bread or a flatbread or bun. */
  predicate BreadLike(c: Component)
  {
    var name := Lower(GetOr(c.name, ""));
    Contains(name, "хлеб") || Contains(name, "лепешка") || Contains(name, "булка")
  }

  predicate HasBread(cs: seq<Component>)
  {
    exists k :: 0 <= k < |cs| && BreadLike(cs[k])
  }

  /** `_check_components`: no components, or a large meal without bread. */
  function ComponentsWarnings(data: Analysis): seq<Warning>
  {
    var cs := GetOr(data.components, []);
    if |cs| == 0 then [NoComponents]
    else If(!HasBread(cs) && CaloriesOf(data) > 600.0, MissingBread)
  }

  /** The warnings of one `validate` call, in the order of the checks. */
  function Checks(data: Analysis): seq<Warning>
  {
    MinimumCaloriesWarnings(data) + MacrosConsistencyWarnings(data) + CalorieDensityWarnings(data)
    + MacroRatioWarnings(data) + ComponentsWarnings(data)
  }

  // ---------------------------------------------------------------------
  // Merging into the dictionary
  // ---------------------------------------------------------------------

  predicate NoDuplicates<T(==)>(xs: seq<T>)
  {
    forall i, j :: 0 <= i < j < |xs| ==> xs[i] != xs[j]
  }

  /**
   * `list(set(xs))`: the same texts, each once. Python leaves the order to
   * the set; here each text stays where it first occurs.
   */
  method Deduplicate(xs: seq<string>) returns (ys: seq<string>)
    ensures NoDuplicates(ys)
    ensures forall x :: x in ys <==> x in xs
  {
    ys := [];
    for i := 0 to |xs|
      invariant NoDuplicates(ys)
      invariant forall x :: x in ys <==> x in xs[..i]
    {
      if xs[i] !in ys {
        ys := ys + [xs[i]];
      }
      assert xs[..i + 1] == xs[..i] + [xs[i]];
    }
    assert xs[..|xs|] == xs;
  }

  class FoodAnalysisValidator {
    var warnings: seq<Warning>

    constructor ()
      ensures warnings == []
    {
      warnings := [];
    }

    method CheckMinimumCalories(data: Analysis)
      modifies this
      ensures warnings == old(warnings) + MinimumCaloriesWarnings(data)
    {
      var calories := CaloriesOf(data);
      var minimum := MinCalories["lunch"];
      if calories < minimum as real {
        warnings := warnings + [LowCalories(calories, minimum)];
      }
    }

    method CheckMacrosConsistency(data: Analysis)
      modifies this
      ensures warnings == old(warnings) + MacrosConsistencyWarnings(data)
    {
      var total := CaloriesOf(data);
      var calculated := MacroCalories(GetOr(data.proteinG, 0.0), GetOr(data.fatG, 0.0), GetOr(data.carbsG, 0.0));
      var tolerance := total * 0.15;
      if Abs(total - calculated) > tolerance {
        warnings := warnings + [MacroMismatch(total, calculated)];
      }
    }

    method CheckCalorieDensity(data: Analysis)
      modifies this
      ensures warnings == old(warnings) + CalorieDensityWarnings(data)
    {
      var density := GetOr(data.caloriesPer100g, 0.0);
      if density < 50.0 {
        warnings := warnings + [LowDensity(density)];
      } else if density > 400.0 {
        warnings := warnings + [HighDensity(density)];
      }
    }

    method CheckShare(m: Macro, percent: real)
      modifies this
      ensures warnings == old(warnings) + ShareWarnings(m, percent)
    {
      var range := RealisticRange(m);
      if percent < range.0 as real {
        warnings := warnings + [LowShare(m, percent)];
      } else if percent > range.1 as real {
        warnings := warnings + [HighShare(m, percent)];
      }
    }

    method CheckMacroRatios(data: Analysis)
      modifies this
      ensures warnings == old(warnings) + MacroRatioWarnings(data)
    {
      var total := CaloriesOf(data);
      if total == 0.0 {
        return;
      }
      CheckShare(Protein, CalorieCalculator.EnergyPercent(GetOr(data.proteinG, 0.0), 4.0, total));
      CheckShare(Fat, CalorieCalculator.EnergyPercent(GetOr(data.fatG, 0.0), 9.0, total));
      CheckShare(Carbs, CalorieCalculator.EnergyPercent(GetOr(data.carbsG, 0.0), 4.0, total));
    }

    method CheckComponents(data: Analysis)
      modifies this
      ensures warnings == old(warnings) + ComponentsWarnings(data)
    {
      var cs := GetOr(data.components, []);
      if |cs| == 0 {
        warnings := warnings + [NoComponents];
        return;
      }
      var hasBread := false;
      for k := 0 to |cs|
        invariant hasBread <==> exists j :: 0 <= j < k && BreadLike(cs[j])
      {
        hasBread := hasBread || BreadLike(cs[k]);
      }
      if !hasBread && CaloriesOf(data) > 600.0 {
        warnings := warnings + [MissingBread];
      }
    }

    /**
     * `validate`: the list starts empty, the checks run in order, and the
     * dictionary's warnings become the earlier ones together with the new
     * texts, each once; nothing else in the dictionary changes.
     */
    method Validate(a: AnalysisDict, render: Warning -> string)
      modifies this, a
      ensures warnings == Checks(old(a.data))
      ensures a.data == old(a.data).(warnings := a.data.warnings)
      ensures a.data.warnings.Some? && NoDuplicates(a.data.warnings.value)
      ensures forall t :: t in a.data.warnings.value <==>
        t in GetOr(old(a.data.warnings), []) || t in MapSeq(render, warnings)
    {
      var data := a.data;
      warnings := [];
      CheckMinimumCalories(data);
      CheckMacrosConsistency(data);
      CheckCalorieDensity(data);
      CheckMacroRatios(data);
      CheckComponents(data);
      var all := GetOr(data.warnings, []) + MapSeq(render, warnings);
      var unique := Deduplicate(all);
      a.data := data.(warnings := Some(unique));
    }
  }

  // ---------------------------------------------------------------------
  // What the checks promise
  // ---------------------------------------------------------------------

  /** An energy below the lunch minimum of 400 kcal is always reported, and only then. */
  lemma LowCaloriesReported(data: Analysis)
    ensures CaloriesOf(data) < 400.0 ==> LowCalories(CaloriesOf(data), 400) in Checks(data)
    ensures MinimumCaloriesWarnings(data) != [] <==> CaloriesOf(data) < 400.0
  {
    assert MinCalories["lunch"] == 400;
  }

  /** A mismatch is reported exactly when the stated energy is more than 15% away from the macros' energy. */
  lemma MismatchExactly(data: Analysis)
    ensures var total := CaloriesOf(data);
      var calculated := MacroCalories(GetOr(data.proteinG, 0.0), GetOr(data.fatG, 0.0), GetOr(data.carbsG, 0.0));
      && (MacrosConsistencyWarnings(data) != [] <==> Abs(total - calculated) > 0.15 * total)
      && (Abs(total - calculated) > 0.15 * total ==> MacroMismatch(total, calculated) in Checks(data))
  {
  }

  /** Below 50 kcal per 100 g the density is too low, above 400 too high, and in between fine. */
  lemma DensityBands(data: Analysis)
    ensures var d := GetOr(data.caloriesPer100g, 0.0);
      && (d < 50.0 ==> CalorieDensityWarnings(data) == [LowDensity(d)])
      && (d > 400.0 ==> CalorieDensityWarnings(data) == [HighDensity(d)])
      && (50.0 <= d <= 400.0 ==> CalorieDensityWarnings(data) == [])
  {
  }

  /**
   * Without energy the ratio check reports nothing; otherwise it reports at
   * most one verdict for each macro, never both too little and too much.
   */
  lemma RatioVerdicts(data: Analysis)
    ensures CaloriesOf(data) == 0.0 ==> MacroRatioWarnings(data) == []
    ensures |MacroRatioWarnings(data)| <= 3
    ensures forall m, p, q :: !(LowShare(m, p) in MacroRatioWarnings(data) && HighShare(m, q) in MacroRatioWarnings(data))
  {
    var total := CaloriesOf(data);
    if total != 0.0 {
      var pp := CalorieCalculator.EnergyPercent(GetOr(data.proteinG, 0.0), 4.0, total);
      var fp := CalorieCalculator.EnergyPercent(GetOr(data.fatG, 0.0), 9.0, total);
      var cp := CalorieCalculator.EnergyPercent(GetOr(data.carbsG, 0.0), 4.0, total);
      var r := MacroRatioWarnings(data);
      assert r == ShareWarnings(Protein, pp) + ShareWarnings(Fat, fp) + ShareWarnings(Carbs, cp);
      forall m, p, q | LowShare(m, p) in r
        ensures HighShare(m, q) !in r
      {
        ShareOfOwnMacro(Protein, pp);
        ShareOfOwnMacro(Fat, fp);
        ShareOfOwnMacro(Carbs, cp);
      }
    }
  }

  /** A share verdict names its own macro. */
  lemma ShareOfOwnMacro(m: Macro, percent: real)
    ensures forall w :: w in ShareWarnings(m, percent) ==> w.macro == m
  {
  }

  /**
   * No components gives exactly the one warning and skips the bread check;
   * the bread warning appears exactly for a meal of over 600 kcal with
   * components of which none is bread-like.
   */
  lemma ComponentsVerdicts(data: Analysis)
    ensures |GetOr(data.components, [])| == 0 ==> ComponentsWarnings(data) == [NoComponents]
    ensures MissingBread in ComponentsWarnings(data) <==>
      |GetOr(data.components, [])| > 0 && !HasBread(GetOr(data.components, [])) && CaloriesOf(data) > 600.0
  {
  }
}
