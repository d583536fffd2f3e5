/**
 * The analysis record shared by the photo, video and correction paths: a
 * JSON object in the bot, here a datatype whose optional fields stand for
 * keys that may be absent.
 */
module Food {
  import opened Common

  /** One entry of an analysis' `components` list. */
  datatype Component = Component(
    name: Option<string>,
    weightG: Option<real>,
    calories: Option<real>,
    proteinG: Option<real>,
    fatG: Option<real>,
    carbsG: Option<real>,
    confidence: Option<real>)

  /** What the video aggregator records about its own run. */
  datatype AggregationMetadata = AggregationMetadata(
    framesAnalyzed: nat,
    conflictsResolved: nat,
    audioHypothesisUsed: bool,
    finalConfidence: real)

  /** An analysis as the bot stores it in a session and shows it to the user. */
  datatype Analysis = Analysis(
    dishName: Option<string>,
    components: Option<seq<Component>>,
    weightGrams: Option<real>,
    caloriesTotal: Option<real>,
    caloriesPer100g: Option<real>,
    proteinG: Option<real>,
    fatG: Option<real>,
    carbsG: Option<real>,
    healthScore: Option<real>,
    warnings: Option<seq<string>>,
    detailedAnalysis: Option<string>,
    recommendations: Option<string>,
    portionAdvice: Option<string>,
    correctionApplied: Option<string>,
    source: Option<string>,
    audioTranscription: Option<string>,
    transcriptionUsed: Option<bool>,
    aggregationMetadata: Option<AggregationMetadata>)

  /**
   * One frame's reply from the vision model, tagged with its position.
   * `otherKeys` records whether the reply holds keys besides those listed,
   * which decides whether the reply is an empty (falsy) object.
   */
  datatype FrameEvidence = FrameEvidence(
    components: Option<seq<Component>>,
    actualDish: Option<string>,
    hypothesisConfirmed: Option<bool>,
    discrepancies: Option<seq<string>>,
    frameIndex: Option<int>,
    frameTotal: Option<int>,
    otherKeys: bool)

  /** The analysis with no keys at all. */
  const NoKeys: Analysis := Analysis(None, None, None, None, None, None, None, None,
                                     None, None, None, None, None, None, None, None, None, None)

  /** An analysis dictionary that callers hold and that operations change in place. */
  class AnalysisDict {
    var data: Analysis

    constructor (a: Analysis)
      ensures data == a
    {
      data := a;
    }
  }

  /** Energy the macros account for: 4 kcal per gram of protein and carbohydrate, 9 per gram of fat. */
  function MacroCalories(protein: real, fat: real, carbs: real): real
  {
    protein * 4.0 + fat * 9.0 + carbs * 4.0
  }

  /** The numeric fields that totals are taken over. */
  datatype Field = WeightField | CaloriesField | ProteinField | FatField | CarbsField

  /** `comp.get(field, 0)`. */
  function ComponentField(c: Component, f: Field): real
  {
    match f
    case WeightField => GetOr(c.weightG, 0.0)
    case CaloriesField => GetOr(c.calories, 0.0)
    case ProteinField => GetOr(c.proteinG, 0.0)
    case FatField => GetOr(c.fatG, 0.0)
    case CarbsField => GetOr(c.carbsG, 0.0)
  }

  /** `sum(c.get(field, 0) for c in components)`. */
  function Total(cs: seq<Component>, f: Field): real
  {
    if |cs| == 0 then 0.0 else Total(cs[..|cs| - 1], f) + ComponentField(cs[|cs| - 1], f)
  }

  /** Appending a component adds its value to every total. */
  lemma TotalAppend(cs: seq<Component>, c: Component, f: Field)
    ensures Total(cs + [c], f) == Total(cs, f) + ComponentField(c, f)
  {
    assert (cs + [c])[..|cs|] == cs;
  }

  /** Totals only depend on the component values, position by position. */
  lemma {:induction false} TotalCongruent(cs: seq<Component>, ds: seq<Component>, f: Field)
    requires |cs| == |ds|
    requires forall i :: 0 <= i < |cs| ==> ComponentField(cs[i], f) == ComponentField(ds[i], f)
    ensures Total(cs, f) == Total(ds, f)
    decreases |cs|
  {
    if |cs| > 0 {
      TotalCongruent(cs[..|cs| - 1], ds[..|ds| - 1], f);
    }
  }
}
