/**
 * The plausibility checks on an analysis (`FoodAnalysisValidator` in
 * utils/validators.py).
 *
 * Warnings are kept as values that carry the numbers they report; the
 * English wording around those numbers is not modelled.
 */
module FoodAnalysisValidator {
  import opened Common
  import opened Food

  const MinCaloriesPer100g := 10.0
  const MaxCaloriesPer100g := 900.0
  const MinWeight := 5.0
  const MaxWeight := 2000.0

  /** `part / whole * 100`. */
  function Percent(part: real, whole: real): real
    requires whole != 0.0
  {
    part / whole * 100.0
  }

  /** One warning of `validate_analysis` or `validate_component`, with the numbers it reports. */
  datatype AnalysisWarning =
    | MissingField(field: string)
    | WeightTooLow(weight: real)
    | WeightTooHigh(weight: real)
    | NegativeCalories(calories: real)
    | UnrealisticCalories(calories: real)
    | LowDensity(per100g: real)
    | HighDensity(per100g: real)
    | MacroMismatch(stated: real, fromMacros: real, diffPercent: real)
    | UnusualProtein(percent: real)
    | UnusualFat(percent: real)
    | UnusualCarbs(percent: real)
    | ComponentMissingName(index: nat)
    | ComponentMissingWeight(index: nat)
    | ComponentUnrealisticWeight(index: nat, weight: real)
    | ComponentInvalidConfidence(index: nat, confidence: real)

  /** The kind of a warning, without its numbers. */
  datatype WarningKind =
    | MissingKind | WeightLowKind | WeightHighKind | NegativeKind | UnrealisticKind
    | LowDensityKind | HighDensityKind | MismatchKind | ProteinKind | FatKind | CarbsKind
    | ComponentKind

  function KindOf(w: AnalysisWarning): WarningKind
  {
    match w
    case MissingField(_) => MissingKind
    case WeightTooLow(_) => WeightLowKind
    case WeightTooHigh(_) => WeightHighKind
    case NegativeCalories(_) => NegativeKind
    case UnrealisticCalories(_) => UnrealisticKind
    case LowDensity(_) => LowDensityKind
    case HighDensity(_) => HighDensityKind
    case MacroMismatch(_, _, _) => MismatchKind
    case UnusualProtein(_) => ProteinKind
    case UnusualFat(_) => FatKind
    case UnusualCarbs(_) => CarbsKind
    case _ => ComponentKind
  }

  /** The kinds of warning a list holds. */
  function Kinds(ws: seq<AnalysisWarning>): set<WarningKind>
  {
    if ws == [] then {} else {KindOf(ws[0])} + Kinds(ws[1..])
  }

  lemma {:induction false} KindsAppend(a: seq<AnalysisWarning>, b: seq<AnalysisWarning>)
    ensures Kinds(a + b) == Kinds(a) + Kinds(b)
    decreases |a|
  {
    if a != [] {
      assert (a + b)[1..] == a[1..] + b;
      KindsAppend(a[1..], b);
    } else {
      assert a + b == b;
    }
  }

  /** `[w] if c else []`. */
  function When(c: bool, w: AnalysisWarning): seq<AnalysisWarning>
  {
    if c then [w] else []
  }

  /** The fields `validate_analysis` requires, in the order it checks them. */
  const RequiredFields: seq<string> := ["dish_name", "weight_grams", "calories_total", "protein_g", "fat_g", "carbs_g"]

  /** `field in data and data[field] is not None` for a required field. */
  predicate Present(data: Analysis, field: string)
  {
    if field == "dish_name" then data.dishName.Some?
    else if field == "weight_grams" then data.weightGrams.Some?
    else if field == "calories_total" then data.caloriesTotal.Some?
    else if field == "protein_g" then data.proteinG.Some?
    else if field == "fat_g" then data.fatG.Some?
    else if field == "carbs_g" then data.carbsG.Some?
    else false
  }

  /** One warning per listed field that is missing or None, in list order. */
  function MissingAmong(data: Analysis, fields: seq<string>): seq<AnalysisWarning>
  {
    if |fields| == 0 then []
    else MissingAmong(data, fields[..|fields| - 1])
         + When(!Present(data, fields[|fields| - 1]), MissingField(fields[|fields| - 1]))
  }

  predicate HasRequiredFields(data: Analysis)
  {
    data.dishName.Some? && data.weightGrams.Some? && data.caloriesTotal.Some?
    && data.proteinG.Some? && data.fatG.Some? && data.carbsG.Some?
  }

  /** Exactly the absent fields are reported, and nothing else. */
  lemma {:induction false} MissingAmongExactly(data: Analysis, fields: seq<string>)
    ensures forall f :: MissingField(f) in MissingAmong(data, fields) <==> f in fields && !Present(data, f)
    ensures forall w :: w in MissingAmong(data, fields) ==> w.MissingField?
    decreases |fields|
  {
    if |fields| > 0 {
      var n := |fields| - 1;
      MissingAmongExactly(data, fields[..n]);
      assert fields == fields[..n] + [fields[n]];
    }
  }

  /** Some required field is reported missing exactly when one is absent. */
  lemma MissingIffAbsent(data: Analysis)
    ensures MissingAmong(data, RequiredFields) == [] <==> HasRequiredFields(data)
  {
    MissingAmongExactly(data, RequiredFields);
    if MissingAmong(data, RequiredFields) == [] {
      assert forall f :: f in RequiredFields ==> Present(data, f);
      assert Present(data, RequiredFields[0]) && Present(data, RequiredFields[1]) && Present(data, RequiredFields[2]);
      assert Present(data, RequiredFields[3]) && Present(data, RequiredFields[4]) && Present(data, RequiredFields[5]);
    } else {
      var w := MissingAmong(data, RequiredFields)[0];
      assert w in MissingAmong(data, RequiredFields);
      assert MissingField(w.field) in MissingAmong(data, RequiredFields);
    }
  }

  /** `validate_component`: name, weight and confidence checks for the component at `index`. */
  function ComponentWarnings(c: Component, index: nat): seq<AnalysisWarning>
  {
    NameCheck(c, index) + WeightCheck(c, index) + ConfidenceCheck(c, index)
  }

  /** A component without a name, or with an empty one. */
  function NameCheck(c: Component, index: nat): seq<AnalysisWarning>
  {
    When(c.name.None? || c.name.value == "", ComponentMissingName(index))
  }

  /** A component without a weight, or with one outside [1, 2000] g. */
  function WeightCheck(c: Component, index: nat): seq<AnalysisWarning>
  {
    match c.weightG
    case None => [ComponentMissingWeight(index)]
    case Some(w) => When(w < 1.0 || w > 2000.0, ComponentUnrealisticWeight(index, w))
  }

  /** A stated confidence outside [0, 1]; a missing one is not checked. */
  function ConfidenceCheck(c: Component, index: nat): seq<AnalysisWarning>
  {
    match c.confidence
    case None => []
    case Some(conf) => When(!(0.0 <= conf <= 1.0), ComponentInvalidConfidence(index, conf))
  }

  /** The component warnings of every component, in list order. */
  function AllComponentWarnings(cs: seq<Component>): seq<AnalysisWarning>
  {
    if |cs| == 0 then []
    else AllComponentWarnings(cs[..|cs| - 1]) + ComponentWarnings(cs[|cs| - 1], |cs| - 1)
  }

  /** `Weight too low` below 5 g, else `Weight too high` above 2000 g. */
  function WeightWarnings(weight: real): seq<AnalysisWarning>
  {
    if weight < MinWeight then [WeightTooLow(weight)] else When(weight > MaxWeight, WeightTooHigh(weight))
  }

  /** Negative calories, else more than 5000 kcal. */
  function CalorieWarnings(calories: real): seq<AnalysisWarning>
  {
    if calories < 0.0 then [NegativeCalories(calories)] else When(calories > 5000.0, UnrealisticCalories(calories))
  }

  /** Energy density outside [10, 900] kcal per 100 g, checked only for a positive weight. */
  function DensityWarnings(weight: real, calories: real): seq<AnalysisWarning>
  {
    if weight > 0.0 then
      var density := Percent(calories, weight);
      if density < MinCaloriesPer100g then [LowDensity(density)]
      else When(density > MaxCaloriesPer100g, HighDensity(density))
    else []
  }

  /** The range checks on weight, calories and energy density. */
  function RangeWarnings(weight: real, calories: real): seq<AnalysisWarning>
  {
    WeightWarnings(weight) + CalorieWarnings(calories) + DensityWarnings(weight, calories)
  }

  /** Stated calories more than 20% away from the macros' energy, for positive calories. */
  function MismatchWarnings(calories: real, protein: real, fat: real, carbs: real): seq<AnalysisWarning>
  {
    if calories > 0.0 then
      var calculated := MacroCalories(protein, fat, carbs);
      var diff := Percent(Abs(calories - calculated), calories);
      When(diff > 20.0, MacroMismatch(calories, calculated, diff))
    else []
  }

  /** Each macro's share of the energy outside its usual range, for positive calories. */
  function RatioWarnings(calories: real, protein: real, fat: real, carbs: real): seq<AnalysisWarning>
  {
    if calories > 0.0 then
      var p := Percent(protein * 4.0, calories);
      var f := Percent(fat * 9.0, calories);
      var c := Percent(carbs * 4.0, calories);
      When(!(5.0 <= p <= 40.0), UnusualProtein(p))
      + When(!(10.0 <= f <= 50.0), UnusualFat(f))
      + When(!(20.0 <= c <= 80.0), UnusualCarbs(c))
    else []
  }

  /** `validate_analysis`'s warning list. */
  function AnalysisWarnings(data: Analysis): seq<AnalysisWarning>
  {
    if !HasRequiredFields(data) then MissingAmong(data, RequiredFields)
    else
      var calories := data.caloriesTotal.value;
      RangeWarnings(data.weightGrams.value, calories)
      + MismatchWarnings(calories, data.proteinG.value, data.fatG.value, data.carbsG.value)
      + RatioWarnings(calories, data.proteinG.value, data.fatG.value, data.carbsG.value)
      + AllComponentWarnings(GetOr(data.components, []))
  }

  /** `validate_component`: the name, weight and confidence checks, appended in turn. */
  method ValidateComponent(component: Component, index: nat) returns (warnings: seq<AnalysisWarning>)
    ensures warnings == ComponentWarnings(component, index)
  {
    warnings := [];
    if component.name.None? || component.name.value == "" {
      warnings := warnings + [ComponentMissingName(index)];
    }
    if component.weightG.None? {
      warnings := warnings + [ComponentMissingWeight(index)];
    } else {
      var weight := component.weightG.value;
      if weight < 1.0 || weight > 2000.0 {
        warnings := warnings + [ComponentUnrealisticWeight(index, weight)];
      }
    }
    if component.confidence.Some? {
      var conf := component.confidence.value;
      if !(0.0 <= conf <= 1.0) {
        warnings := warnings + [ComponentInvalidConfidence(index, conf)];
      }
    }
  }

  /** The required-field loop of `validate_analysis`. */
  method CheckRequired(data: Analysis) returns (warnings: seq<AnalysisWarning>)
    ensures warnings == MissingAmong(data, RequiredFields)
  {
    warnings := [];
    for i := 0 to |RequiredFields|
      invariant warnings == MissingAmong(data, RequiredFields[..i])
    {
      assert RequiredFields[..i + 1][..i] == RequiredFields[..i];
      var field := RequiredFields[i];
      if !Present(data, field) {
        warnings := warnings + [MissingField(field)];
      }
    }
    assert RequiredFields[..|RequiredFields|] == RequiredFields;
  }

  /** The component loop of `validate_analysis`: each component's warnings, extended in list order. */
  method CheckComponents(components: seq<Component>) returns (warnings: seq<AnalysisWarning>)
    ensures warnings == AllComponentWarnings(components)
  {
    warnings := [];
    for i := 0 to |components|
      invariant warnings == AllComponentWarnings(components[..i])
    {
      assert components[..i + 1][..i] == components[..i];
      var componentWarnings := ValidateComponent(components[i], i);
      warnings := warnings + componentWarnings;
    }
    assert components[..|components|] == components;
  }

  /** `validate_analysis`: collect the warnings; the analysis is valid when there are none. */
  method ValidateAnalysis(data: Analysis) returns (isValid: bool, warnings: seq<AnalysisWarning>)
    ensures warnings == AnalysisWarnings(data)
    ensures isValid <==> warnings == []
  {
    warnings := CheckRequired(data);
    MissingIffAbsent(data);
    if warnings != [] {
      return false, warnings;
    }
    var weight := data.weightGrams.value;
    var calories := data.caloriesTotal.value;
    var protein, fat, carbs := data.proteinG.value, data.fatG.value, data.carbsG.value;
    var ranges := CheckRanges(weight, calories);
    var mismatch := CheckMismatch(calories, protein, fat, carbs);
    var ratios := CheckRatios(calories, protein, fat, carbs);
    var components := CheckComponents(GetOr(data.components, []));
    warnings := ranges + mismatch + ratios + components;
    isValid := |warnings| == 0;
  }

  /** The weight, calorie and density checks of `validate_analysis`, in its order. */
  method CheckRanges(weight: real, calories: real) returns (warnings: seq<AnalysisWarning>)
    ensures warnings == RangeWarnings(weight, calories)
  {
    warnings := [];
    if weight < MinWeight {
      warnings := warnings + [WeightTooLow(weight)];
    } else if weight > MaxWeight {
      warnings := warnings + [WeightTooHigh(weight)];
    }
    assert warnings == WeightWarnings(weight);
    if calories < 0.0 {
      warnings := warnings + [NegativeCalories(calories)];
    } else if calories > 5000.0 {
      warnings := warnings + [UnrealisticCalories(calories)];
    }
    assert warnings == WeightWarnings(weight) + CalorieWarnings(calories);
    if weight > 0.0 {
      var per100g := Percent(calories, weight);
      if per100g < MinCaloriesPer100g {
        warnings := warnings + [LowDensity(per100g)];
      } else if per100g > MaxCaloriesPer100g {
        warnings := warnings + [HighDensity(per100g)];
      }
    }
  }

  /** The macro-consistency check of `validate_analysis`. */
  method CheckMismatch(calories: real, protein: real, fat: real, carbs: real) returns (warnings: seq<AnalysisWarning>)
    ensures warnings == MismatchWarnings(calories, protein, fat, carbs)
  {
    warnings := [];
    var calculated := MacroCalories(protein, fat, carbs);
    if calories > 0.0 {
      var diffPercent := Percent(Abs(calories - calculated), calories);
      if diffPercent > 20.0 {
        warnings := warnings + [MacroMismatch(calories, calculated, diffPercent)];
      }
    }
  }

  /** The macro-ratio checks of `validate_analysis`, protein, fat and carbohydrate in turn. */
  method CheckRatios(calories: real, protein: real, fat: real, carbs: real) returns (warnings: seq<AnalysisWarning>)
    ensures warnings == RatioWarnings(calories, protein, fat, carbs)
  {
    warnings := [];
    if calories > 0.0 {
      var proteinPercent := Percent(protein * 4.0, calories);
      var fatPercent := Percent(fat * 9.0, calories);
      var carbsPercent := Percent(carbs * 4.0, calories);
      if !(5.0 <= proteinPercent <= 40.0) {
        warnings := warnings + [UnusualProtein(proteinPercent)];
      }
      assert warnings == When(!(5.0 <= proteinPercent <= 40.0), UnusualProtein(proteinPercent));
      if !(10.0 <= fatPercent <= 50.0) {
        warnings := warnings + [UnusualFat(fatPercent)];
      }
      assert warnings == When(!(5.0 <= proteinPercent <= 40.0), UnusualProtein(proteinPercent))
                         + When(!(10.0 <= fatPercent <= 50.0), UnusualFat(fatPercent));
      if !(20.0 <= carbsPercent <= 80.0) {
        warnings := warnings + [UnusualCarbs(carbsPercent)];
      }
    }
  }

  lemma KindsWhen(c: bool, w: AnalysisWarning)
    ensures Kinds(When(c, w)) == if c then {KindOf(w)} else {}
  {
    assert [w][1..] == [];
  }

  /** A missing required field stops validation: only missing-field warnings, one per absent field. */
  lemma MissingFieldsOnly(data: Analysis)
    requires !HasRequiredFields(data)
    ensures AnalysisWarnings(data) != []
    ensures forall w :: w in AnalysisWarnings(data) ==> w.MissingField?
    ensures forall f :: MissingField(f) in AnalysisWarnings(data) <==> f in RequiredFields && !Present(data, f)
  {
    MissingIffAbsent(data);
    MissingAmongExactly(data, RequiredFields);
  }

  lemma WeightKinds(weight: real)
    ensures Kinds(WeightWarnings(weight)) == if weight < MinWeight then {WeightLowKind}
      else if weight > MaxWeight then {WeightHighKind} else {}
  {
    KindsWhen(weight < MinWeight, WeightTooLow(weight));
    KindsWhen(weight > MaxWeight, WeightTooHigh(weight));
  }

  lemma CalorieKinds(calories: real)
    ensures Kinds(CalorieWarnings(calories)) == if calories < 0.0 then {NegativeKind}
      else if calories > 5000.0 then {UnrealisticKind} else {}
  {
    KindsWhen(calories < 0.0, NegativeCalories(calories));
    KindsWhen(calories > 5000.0, UnrealisticCalories(calories));
  }

  lemma DensityKinds(weight: real, calories: real)
    ensures Kinds(DensityWarnings(weight, calories)) ==
      if weight <= 0.0 then {}
      else if Percent(calories, weight) < MinCaloriesPer100g then {LowDensityKind}
      else if Percent(calories, weight) > MaxCaloriesPer100g then {HighDensityKind} else {}
  {
    if weight > 0.0 {
      var density := Percent(calories, weight);
      KindsWhen(density < MinCaloriesPer100g, LowDensity(density));
      KindsWhen(density > MaxCaloriesPer100g, HighDensity(density));
    }
  }

  /** The range warnings: each one appears exactly under its condition. */
  lemma RangeKinds(weight: real, calories: real)
    ensures var ks := Kinds(RangeWarnings(weight, calories));
      && (WeightLowKind in ks <==> weight < MinWeight)
      && (WeightHighKind in ks <==> MinWeight <= weight && weight > MaxWeight)
      && (NegativeKind in ks <==> calories < 0.0)
      && (UnrealisticKind in ks <==> 0.0 <= calories && calories > 5000.0)
      && (LowDensityKind in ks <==> weight > 0.0 && Percent(calories, weight) < MinCaloriesPer100g)
      && (HighDensityKind in ks <==> weight > 0.0 && MinCaloriesPer100g <= Percent(calories, weight) && Percent(calories, weight) > MaxCaloriesPer100g)
      && ks <= {WeightLowKind, WeightHighKind, NegativeKind, UnrealisticKind, LowDensityKind, HighDensityKind}
  {
    WeightKinds(weight);
    CalorieKinds(calories);
    DensityKinds(weight, calories);
    KindsOfThree(WeightWarnings(weight), CalorieWarnings(calories), DensityWarnings(weight, calories));
  }

  lemma KindsOfThree(a: seq<AnalysisWarning>, b: seq<AnalysisWarning>, c: seq<AnalysisWarning>)
    ensures Kinds(a + b + c) == Kinds(a) + Kinds(b) + Kinds(c)
  {
    KindsAppend(a, b);
    KindsAppend(a + b, c);
  }

  lemma RatioKinds(calories: real, protein: real, fat: real, carbs: real)
    requires calories > 0.0
    ensures var ks := Kinds(RatioWarnings(calories, protein, fat, carbs));
      && (ProteinKind in ks <==> !(5.0 <= Percent(protein * 4.0, calories) <= 40.0))
      && (FatKind in ks <==> !(10.0 <= Percent(fat * 9.0, calories) <= 50.0))
      && (CarbsKind in ks <==> !(20.0 <= Percent(carbs * 4.0, calories) <= 80.0))
      && ks <= {ProteinKind, FatKind, CarbsKind}
  {
    var p := Percent(protein * 4.0, calories);
    var f := Percent(fat * 9.0, calories);
    var c := Percent(carbs * 4.0, calories);
    KindsWhen(!(5.0 <= p <= 40.0), UnusualProtein(p));
    KindsWhen(!(10.0 <= f <= 50.0), UnusualFat(f));
    KindsWhen(!(20.0 <= c <= 80.0), UnusualCarbs(c));
    KindsOfThree(When(!(5.0 <= p <= 40.0), UnusualProtein(p)), When(!(10.0 <= f <= 50.0), UnusualFat(f)),
                 When(!(20.0 <= c <= 80.0), UnusualCarbs(c)));
  }

  /** The macro warnings: none at all unless calories are positive, and each one exactly under its condition. */
  lemma MacroKinds(calories: real, protein: real, fat: real, carbs: real)
    ensures var ks := Kinds(MismatchWarnings(calories, protein, fat, carbs) + RatioWarnings(calories, protein, fat, carbs));
      && (calories <= 0.0 ==> ks == {})
      && (calories > 0.0 ==>
          && (MismatchKind in ks <==> Percent(Abs(calories - MacroCalories(protein, fat, carbs)), calories) > 20.0)
          && (ProteinKind in ks <==> !(5.0 <= Percent(protein * 4.0, calories) <= 40.0))
          && (FatKind in ks <==> !(10.0 <= Percent(fat * 9.0, calories) <= 50.0))
          && (CarbsKind in ks <==> !(20.0 <= Percent(carbs * 4.0, calories) <= 80.0)))
      && ks <= {MismatchKind, ProteinKind, FatKind, CarbsKind}
  {
    KindsAppend(MismatchWarnings(calories, protein, fat, carbs), RatioWarnings(calories, protein, fat, carbs));
    if calories > 0.0 {
      var calculated := MacroCalories(protein, fat, carbs);
      var diff := Percent(Abs(calories - calculated), calories);
      KindsWhen(diff > 20.0, MacroMismatch(calories, calculated, diff));
      RatioKinds(calories, protein, fat, carbs);
    }
  }

  /** Component warnings only ever come from components. */
  lemma {:induction false} ComponentKinds(cs: seq<Component>)
    ensures Kinds(AllComponentWarnings(cs)) <= {ComponentKind}
    decreases |cs|
  {
    if |cs| > 0 {
      var n := |cs| - 1;
      ComponentKinds(cs[..n]);
      OneComponentKinds(cs[n], n);
      KindsAppend(AllComponentWarnings(cs[..n]), ComponentWarnings(cs[n], n));
    }
  }

  lemma OneComponentKinds(c: Component, index: nat)
    ensures Kinds(ComponentWarnings(c, index)) <= {ComponentKind}
  {
    KindsOfThree(NameCheck(c, index), WeightCheck(c, index), ConfidenceCheck(c, index));
    KindsWithin(NameCheck(c, index), {ComponentKind});
    KindsWithin(WeightCheck(c, index), {ComponentKind});
    KindsWithin(ConfidenceCheck(c, index), {ComponentKind});
  }

  /** A list whose every warning has a kind in `ks` has only kinds in `ks`. */
  lemma {:induction false} KindsWithin(ws: seq<AnalysisWarning>, ks: set<WarningKind>)
    requires forall i :: 0 <= i < |ws| ==> KindOf(ws[i]) in ks
    ensures Kinds(ws) <= ks
    decreases |ws|
  {
    if ws != [] {
      KindsWithin(ws[1..], ks);
    }
  }

  /**
   * With every required field present, each warning kind of the analysis
   * appears exactly under its own condition, and no field is reported
   * missing.
   */
  lemma AnalysisKinds(data: Analysis)
    requires HasRequiredFields(data)
    ensures var w, cal := data.weightGrams.value, data.caloriesTotal.value;
      var p, f, c := data.proteinG.value, data.fatG.value, data.carbsG.value;
      var ks := Kinds(AnalysisWarnings(data));
      && ks == Kinds(RangeWarnings(w, cal)) + Kinds(MismatchWarnings(cal, p, f, c) + RatioWarnings(cal, p, f, c))
               + Kinds(AllComponentWarnings(GetOr(data.components, [])))
      && MissingKind !in ks
  {
    var w, cal := data.weightGrams.value, data.caloriesTotal.value;
    var p, f, c := data.proteinG.value, data.fatG.value, data.carbsG.value;
    var r := RangeWarnings(w, cal);
    var m := MismatchWarnings(cal, p, f, c);
    var q := RatioWarnings(cal, p, f, c);
    var cs := AllComponentWarnings(GetOr(data.components, []));
    assert Kinds(AnalysisWarnings(data)) == Kinds(r) + Kinds(m + q) + Kinds(cs) by {
      assert AnalysisWarnings(data) == r + m + q + cs;
      KindsOfParts(r, m, q, cs);
    }
    assert MissingKind !in Kinds(r) by { RangeKinds(w, cal); }
    assert MissingKind !in Kinds(m + q) by { MacroKinds(cal, p, f, c); }
    assert MissingKind !in Kinds(cs) by { ComponentKinds(GetOr(data.components, [])); }
  }

  lemma KindsOfParts(r: seq<AnalysisWarning>, m: seq<AnalysisWarning>, q: seq<AnalysisWarning>, cs: seq<AnalysisWarning>)
    ensures Kinds(r + m + q + cs) == Kinds(r) + Kinds(m + q) + Kinds(cs)
  {
    KindsAppend(r, m + q);
    KindsAppend(r + (m + q), cs);
    assert r + m + q + cs == r + (m + q) + cs;
  }

  /** A dish of 250 g and 625 kcal with 30/25/70 g of macros and no components passes every check. */
  lemma DumplingsAreValid(data: Analysis)
    requires data == NoKeys.(dishName := Some("Пельмени"), weightGrams := Some(250.0), caloriesTotal := Some(625.0),
                             proteinG := Some(30.0), fatG := Some(25.0), carbsG := Some(70.0), components := Some([]))
    ensures AnalysisWarnings(data) == []
  {
    assert Percent(625.0, 250.0) == 250.0;
    assert MacroCalories(30.0, 25.0, 70.0) == 625.0;
    assert Percent(120.0, 625.0) == 19.2;
    assert Percent(225.0, 625.0) == 36.0;
    assert Percent(280.0, 625.0) == 44.8;
  }

  /** 1000 kcal stated against 125 kcal of macros is a mismatch. */
  lemma MismatchDetected(data: Analysis)
    requires data == NoKeys.(dishName := Some("Test"), weightGrams := Some(100.0), caloriesTotal := Some(1000.0),
                             proteinG := Some(10.0), fatG := Some(5.0), carbsG := Some(10.0))
    ensures MismatchKind in Kinds(AnalysisWarnings(data))
  {
    AnalysisKinds(data);
    MacroKinds(1000.0, 10.0, 5.0, 10.0);
    assert MacroCalories(10.0, 5.0, 10.0) == 125.0;
  }
}
