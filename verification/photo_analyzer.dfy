/**
 * `PhotoAnalyzer` (modules/nutrition/photo_analyzer.py): the mock analysis,
 * the filling in of required fields, and the flow of `analyze_photo` from
 * the model's reply to the validated result. Image compression, base64 and
 * the HTTP request are not modelled: the reply's message content arrives as
 * the parameter `reply` (`None` when the request fails), the JSON decoder is
 * the parameter `parse`, and the wording of validation warnings is the
 * parameter `render`.
 */
module PhotoAnalyzer {
  import opened Common
  import opened Food
  import JsonResponse
  import FoodAnalysisValidator

  // ---------------------------------------------------------------------
  // Required fields
  // ---------------------------------------------------------------------

  /** The keys `_ensure_required_fields` fills in. */
  datatype Required =
    | DishName | WeightGrams | CaloriesPer100g | CaloriesTotal | ProteinG | FatG | CarbsG
    | HealthScore | DetailedAnalysis | Recommendations | PortionAdvice | Components | Warnings

  /** The keys in the order of the source's dict. */
  const RequiredFields: seq<Required> := [DishName, WeightGrams, CaloriesPer100g, CaloriesTotal, ProteinG, FatG,
                                          CarbsG, HealthScore, DetailedAnalysis, Recommendations, PortionAdvice,
                                          Components, Warnings]

  const UnknownDish := "Неизвестное блюдо"
  const Unavailable := "Информация недоступна"

  /** `field in data and data[field] is not None`. */
  predicate Has(an: Analysis, f: Required)
  {
    match f
    case DishName => an.dishName.Some?
    case WeightGrams => an.weightGrams.Some?
    case CaloriesPer100g => an.caloriesPer100g.Some?
    case CaloriesTotal => an.caloriesTotal.Some?
    case ProteinG => an.proteinG.Some?
    case FatG => an.fatG.Some?
    case CarbsG => an.carbsG.Some?
    case HealthScore => an.healthScore.Some?
    case DetailedAnalysis => an.detailedAnalysis.Some?
    case Recommendations => an.recommendations.Some?
    case PortionAdvice => an.portionAdvice.Some?
    case Components => an.components.Some?
    case Warnings => an.warnings.Some?
  }

  /** `data[field] = default_value`. */
  function SetDefault(an: Analysis, f: Required): Analysis
  {
    match f
    case DishName => an.(dishName := Some(UnknownDish))
    case WeightGrams => an.(weightGrams := Some(0.0))
    case CaloriesPer100g => an.(caloriesPer100g := Some(0.0))
    case CaloriesTotal => an.(caloriesTotal := Some(0.0))
    case ProteinG => an.(proteinG := Some(0.0))
    case FatG => an.(fatG := Some(0.0))
    case CarbsG => an.(carbsG := Some(0.0))
    case HealthScore => an.(healthScore := Some(5.0))
    case DetailedAnalysis => an.(detailedAnalysis := Some(Unavailable))
    case Recommendations => an.(recommendations := Some(Unavailable))
    case PortionAdvice => an.(portionAdvice := Some(Unavailable))
    case Components => an.(components := Some([]))
    case Warnings => an.(warnings := Some([]))
  }

  /** The analysis after the loop has visited the fields `fs`. */
  function FillAll(an: Analysis, fs: seq<Required>): Analysis
  {
    if |fs| == 0 then an
    else
      var b := FillAll(an, fs[..|fs| - 1]);
      if Has(b, fs[|fs| - 1]) then b else SetDefault(b, fs[|fs| - 1])
  }

  /** `_ensure_required_fields`: each missing or `None` field gets its default, in the dict's order. */
  method EnsureRequiredFields(a: AnalysisDict)
    modifies a
    ensures a.data == FillAll(old(a.data), RequiredFields)
  {
    for i := 0 to |RequiredFields|
      invariant a.data == FillAll(old(a.data), RequiredFields[..i])
    {
      assert RequiredFields[..i + 1][..i] == RequiredFields[..i];
      var field := RequiredFields[i];
      if !Has(a.data, field) {
        a.data := SetDefault(a.data, field);
      }
    }
    assert RequiredFields[..|RequiredFields|] == RequiredFields;
  }

  /** Field `f` of `r` is that of `an` when it had a value, and the default otherwise. */
  predicate FilledFrom(an: Analysis, r: Analysis, f: Required)
  {
    match f
    case DishName => r.dishName == Some(GetOr(an.dishName, UnknownDish))
    case WeightGrams => r.weightGrams == Some(GetOr(an.weightGrams, 0.0))
    case CaloriesPer100g => r.caloriesPer100g == Some(GetOr(an.caloriesPer100g, 0.0))
    case CaloriesTotal => r.caloriesTotal == Some(GetOr(an.caloriesTotal, 0.0))
    case ProteinG => r.proteinG == Some(GetOr(an.proteinG, 0.0))
    case FatG => r.fatG == Some(GetOr(an.fatG, 0.0))
    case CarbsG => r.carbsG == Some(GetOr(an.carbsG, 0.0))
    case HealthScore => r.healthScore == Some(GetOr(an.healthScore, 5.0))
    case DetailedAnalysis => r.detailedAnalysis == Some(GetOr(an.detailedAnalysis, Unavailable))
    case Recommendations => r.recommendations == Some(GetOr(an.recommendations, Unavailable))
    case PortionAdvice => r.portionAdvice == Some(GetOr(an.portionAdvice, Unavailable))
    case Components => r.components == Some(GetOr(an.components, []))
    case Warnings => r.warnings == Some(GetOr(an.warnings, []))
  }

  /** Field `f` is the same in both. */
  predicate SameField(an: Analysis, r: Analysis, f: Required)
  {
    match f
    case DishName => r.dishName == an.dishName
    case WeightGrams => r.weightGrams == an.weightGrams
    case CaloriesPer100g => r.caloriesPer100g == an.caloriesPer100g
    case CaloriesTotal => r.caloriesTotal == an.caloriesTotal
    case ProteinG => r.proteinG == an.proteinG
    case FatG => r.fatG == an.fatG
    case CarbsG => r.carbsG == an.carbsG
    case HealthScore => r.healthScore == an.healthScore
    case DetailedAnalysis => r.detailedAnalysis == an.detailedAnalysis
    case Recommendations => r.recommendations == an.recommendations
    case PortionAdvice => r.portionAdvice == an.portionAdvice
    case Components => r.components == an.components
    case Warnings => r.warnings == an.warnings
  }

  /** The keys outside the required list are the same in both. */
  predicate OthersUnchanged(an: Analysis, r: Analysis)
  {
    r.correctionApplied == an.correctionApplied && r.source == an.source
    && r.audioTranscription == an.audioTranscription && r.transcriptionUsed == an.transcriptionUsed
    && r.aggregationMetadata == an.aggregationMetadata
  }

  /** One step of the loop: the visited field is filled, every other field is kept. */
  lemma FillStep(an: Analysis, b: Analysis, g: Required)
    ensures var c := if Has(b, g) then b else SetDefault(b, g);
      && (SameField(an, b, g) ==> FilledFrom(an, c, g))
      && (FilledFrom(an, b, g) ==> FilledFrom(an, c, g))
      && (forall f :: f != g ==> (FilledFrom(an, b, f) ==> FilledFrom(an, c, f)) && (SameField(an, b, f) ==> SameField(an, c, f)))
      && (OthersUnchanged(an, b) ==> OthersUnchanged(an, c))
  {
  }

  /** After visiting `fs`, the visited fields are filled, the others untouched. */
  lemma {:induction false} FillAllFills(an: Analysis, fs: seq<Required>)
    ensures forall f :: f in fs ==> FilledFrom(an, FillAll(an, fs), f)
    ensures forall f :: f !in fs ==> SameField(an, FillAll(an, fs), f)
    ensures OthersUnchanged(an, FillAll(an, fs))
  {
    if |fs| > 0 {
      var n := |fs| - 1;
      FillAllFills(an, fs[..n]);
      FillStep(an, FillAll(an, fs[..n]), fs[n]);
      assert fs == fs[..n] + [fs[n]];
    }
  }

  /**
   * After `_ensure_required_fields` every required key holds a value: the
   * earlier one where there was one, the default otherwise; no other key
   * changes, and the fields `validate_analysis` requires are all present.
   */
  lemma EnsureRequiredFieldsFills(an: Analysis)
    ensures forall f :: FilledFrom(an, FillAll(an, RequiredFields), f)
    ensures forall f :: Has(FillAll(an, RequiredFields), f)
    ensures OthersUnchanged(an, FillAll(an, RequiredFields))
    ensures FoodAnalysisValidator.HasRequiredFields(FillAll(an, RequiredFields))
  {
    FillAllFills(an, RequiredFields);
    forall f
      ensures FilledFrom(an, FillAll(an, RequiredFields), f) && Has(FillAll(an, RequiredFields), f)
    {
      match f
      case DishName => assert RequiredFields[0] == f;
      case WeightGrams => assert RequiredFields[1] == f;
      case CaloriesPer100g => assert RequiredFields[2] == f;
      case CaloriesTotal => assert RequiredFields[3] == f;
      case ProteinG => assert RequiredFields[4] == f;
      case FatG => assert RequiredFields[5] == f;
      case CarbsG => assert RequiredFields[6] == f;
      case HealthScore => assert RequiredFields[7] == f;
      case DetailedAnalysis => assert RequiredFields[8] == f;
      case Recommendations => assert RequiredFields[9] == f;
      case PortionAdvice => assert RequiredFields[10] == f;
      case Components => assert RequiredFields[11] == f;
      case Warnings => assert RequiredFields[12] == f;
    }
    assert Has(FillAll(an, RequiredFields), DishName) && Has(FillAll(an, RequiredFields), WeightGrams);
    assert Has(FillAll(an, RequiredFields), CaloriesTotal) && Has(FillAll(an, RequiredFields), ProteinG);
    assert Has(FillAll(an, RequiredFields), FatG) && Has(FillAll(an, RequiredFields), CarbsG);
  }

  // ---------------------------------------------------------------------
  // The mock analysis
  // ---------------------------------------------------------------------

  const MockDish := "Пельмени со сметаной"
  const MockDetail := "Блюдо содержит пельмени (250г) и сметану (30г). Высокое содержание жиров и углеводов."
  const MockAdvice := "• Уменьши порцию на 20-30%\n• Замени сметану на греческий йогурт\n• Добавь овощной салат"
  const MockPortion := "Порция большая (280г). Попробуй уменьшить до 200г"

  /** The two components of the mock. */
  function MockComponents(): seq<Component>
  {
    [Component(Some("Пельмени"), Some(250.0), Some(625.0), Some(30.0), Some(25.0), Some(70.0), Some(0.85)),
     Component(Some("Сметана"), Some(30.0), Some(60.0), Some(2.0), Some(3.0), Some(2.0), Some(0.90))]
  }

  /** `_get_mock_analysis`: dumplings with sour cream. */
  function MockAnalysis(): Analysis
  {
    NoKeys.(
      components := Some(MockComponents()),
      dishName := Some(MockDish),
      weightGrams := Some(280.0), caloriesTotal := Some(685.0), caloriesPer100g := Some(245.0),
      proteinG := Some(32.0), fatG := Some(28.0), carbsG := Some(72.0), healthScore := Some(5.0),
      detailedAnalysis := Some(MockDetail), recommendations := Some(MockAdvice), portionAdvice := Some(MockPortion))
  }

  /**
   * The mock is consistent: its components add up to its totals, and its
   * density is the energy per 100 g rounded to a whole number.
   */
  lemma MockConsistent()
    ensures var m := MockAnalysis();
      var cs := m.components.value;
      && m.weightGrams == Some(Total(cs, WeightField)) && m.caloriesTotal == Some(Total(cs, CaloriesField))
      && m.proteinG == Some(Total(cs, ProteinField)) && m.fatG == Some(Total(cs, FatField))
      && m.carbsG == Some(Total(cs, CarbsField))
      && m.caloriesPer100g == Some(RoundHalfEven(Total(cs, CaloriesField) / Total(cs, WeightField) * 100.0) as real)
  {
    var cs := MockComponents();
    forall f
      ensures Total(cs, f) == ComponentField(cs[0], f) + ComponentField(cs[1], f)
    {
      assert cs[..1][..0] == [];
      assert cs[..1] == [cs[0]];
      assert cs == [cs[0]] + [cs[1]];
      TotalAppend([], cs[0], f);
      TotalAppend([cs[0]], cs[1], f);
    }
    assert 685.0 / 280.0 * 100.0 == 244.0 + 9.0 / 14.0;
  }

  // ---------------------------------------------------------------------
  // analyze_photo
  // ---------------------------------------------------------------------

  /** The tail of `_call_api`: the JSON is taken from the reply and the required fields are filled in. */
  function CallApi(reply: Option<string>, parse: string -> Option<Analysis>): Option<Analysis>
  {
    match reply
    case None => None
    case Some(content) =>
      match JsonResponse.ParseJsonResponse(content, parse)
      case None => None
      case Some(data) => Some(FillAll(data, RequiredFields))
  }

  /** `analyze_photo`: the mock in mock mode; otherwise the reply, its warnings replaced by the validator's when it has any. */
  function PhotoResult(useMock: bool, reply: Option<string>, parse: string -> Option<Analysis>,
                       render: FoodAnalysisValidator.AnalysisWarning -> string): Option<Analysis>
  {
    if useMock then Some(MockAnalysis())
    else match CallApi(reply, parse)
      case None => None
      case Some(result) =>
        var ws := FoodAnalysisValidator.AnalysisWarnings(result);
        if ws != [] then Some(result.(warnings := Some(MapSeq(render, ws)))) else Some(result)
  }

  /** `analyze_photo`, step by step, on a dictionary that the filling and the warnings change in place. */
  method AnalyzePhoto(useMock: bool, reply: Option<string>, parse: string -> Option<Analysis>,
                      render: FoodAnalysisValidator.AnalysisWarning -> string) returns (r: Option<Analysis>)
    ensures r == PhotoResult(useMock, reply, parse, render)
  {
    if useMock {
      return Some(MockAnalysis());
    }
    if reply.None? {
      return None;
    }
    var parsed := JsonResponse.ParseJsonResponse(reply.value, parse);
    if parsed.None? {
      return None;
    }
    var result := new AnalysisDict(parsed.value);
    EnsureRequiredFields(result);
    var isValid, warnings := FoodAnalysisValidator.ValidateAnalysis(result.data);
    if warnings != [] {
      result.data := result.data.(warnings := Some(MapSeq(render, warnings)));
    }
    r := Some(result.data);
  }

  /** In mock mode the reply is never consulted. */
  lemma MockIgnoresReply(reply: Option<string>, other: Option<string>, parse: string -> Option<Analysis>,
                         render: FoodAnalysisValidator.AnalysisWarning -> string)
    ensures PhotoResult(true, reply, parse, render) == PhotoResult(true, other, parse, render) == Some(MockAnalysis())
  {
  }

  /**
   * Outside mock mode the result is the filled-in reply; its earlier
   * warnings are replaced, not extended, whenever the validator finds any,
   * and none of those is a missing required field.
   */
  lemma WarningsReplaced(reply: Option<string>, parse: string -> Option<Analysis>,
                         render: FoodAnalysisValidator.AnalysisWarning -> string)
    ensures PhotoResult(false, reply, parse, render).Some? <==> CallApi(reply, parse).Some?
    ensures CallApi(reply, parse).Some? ==>
      var result := CallApi(reply, parse).value;
      var ws := FoodAnalysisValidator.AnalysisWarnings(result);
      && FoodAnalysisValidator.HasRequiredFields(result)
      && PhotoResult(false, reply, parse, render).value == result.(warnings := PhotoResult(false, reply, parse, render).value.warnings)
      && (ws != [] ==> PhotoResult(false, reply, parse, render).value.warnings == Some(MapSeq(render, ws)))
      && (ws == [] ==> PhotoResult(false, reply, parse, render).value == result)
  {
    if CallApi(reply, parse).Some? {
      var data := JsonResponse.ParseJsonResponse(reply.value, parse).value;
      EnsureRequiredFieldsFills(data);
    }
  }
}
