/**
 * Corrections through the language model (`AICorrectionHandler` in
 * modules/nutrition/ai_correction_handler.py): the model's reply is checked
 * for the seven keys of an analysis and a non-empty component list, its
 * numbers are normalised and it is merged over a copy of the original
 * analysis.
 *
 * The model call itself is the reply `reply` handed in: `None` where the
 * request failed, otherwise the JSON document the reply decoded to.
 */
module AICorrectionHandler {
  import opened Common
  import opened Food
  import opened Json
  import JsonResponse
  import UserInputValidator
  import CorrectionParser

  const NoAiResult := "Не удалось обработать коррекцию через AI"
  const BadAiResult := "AI вернул некорректные данные"
  const AiFailed := "Ошибка при обработке коррекции: "

  /** The keys `_validate_correction_result` requires, in the order it checks them. */
  const RequiredKeys: seq<string> := ["components", "dish_name", "weight_grams", "calories_total", "protein_g", "fat_g", "carbs_g"]

  /** What `_call_api` hands back: nothing when the request failed, else the parsed reply text. */
  function AiReply(content: Option<string>, parse: string -> Option<Value>): (r: Option<Value>)
    ensures content.None? ==> r.None?
    ensures content.Some? ==> r == JsonResponse.ParseJsonResponse(content.value, parse)
  {
    match content
    case None => None
    case Some(text) => JsonResponse.ParseJsonResponse(text, parse)
  }

  // ---------------------------------------------------------------------
  // _validate_correction_result
  // ---------------------------------------------------------------------

  /**
   * `key in result` for whatever the reply decoded to: a dict key, a list
   * element or a substring; `None` where Python raises (`in` on a number).
   */
  function HasKey(v: Value, key: string): Option<bool>
  {
    match v
    case Object(m) => Some(key in m)
    case Array(xs) => Some(Str(key) in xs)
    case Str(s) => Some(Contains(s, key))
    case _ => None
  }

  /** The key loop: `Some(false)` at the first missing key, `None` if a test raises first. */
  function KeysCheck(v: Value, keys: seq<string>): Option<bool>
  {
    if keys == [] then Some(true)
    else match HasKey(v, keys[0])
      case None => None
      case Some(false) => Some(false)
      case Some(true) => KeysCheck(v, keys[1..])
  }

  predicate HasRequiredKeys(m: map<string, Value>)
  {
    "components" in m && "dish_name" in m && "weight_grams" in m && "calories_total" in m
    && "protein_g" in m && "fat_g" in m && "carbs_g" in m
  }

  /**
   * `_validate_correction_result`; `None` where it raises (indexing a list or
   * a string by `'components'`, or `in` on a number).
   */
  function ValidateCorrectionResult(v: Value): Option<bool>
  {
    match KeysCheck(v, RequiredKeys)
    case None => None
    case Some(false) => Some(false)
    case Some(true) =>
      match v
      case Object(m) =>
        if "components" in m then Some(m["components"].Array? && |m["components"].items| > 0) else Some(false)
      case _ => None
  }

  /** On a dict the key loop succeeds exactly when every listed key is there. */
  lemma {:induction false} ObjectKeysCheckAll(m: map<string, Value>, keys: seq<string>)
    ensures KeysCheck(Object(m), keys) == Some(forall i :: 0 <= i < |keys| ==> keys[i] in m)
    decreases |keys|
  {
    if keys != [] {
      ObjectKeysCheckAll(m, keys[1..]);
      assert forall i :: 1 <= i < |keys| ==> keys[i] == keys[1..][i - 1];
    }
  }

  /** A dict passes the key loop exactly when it has all seven keys. */
  lemma ObjectKeysCheck(m: map<string, Value>)
    ensures KeysCheck(Object(m), RequiredKeys) == Some(HasRequiredKeys(m))
  {
    ObjectKeysCheckAll(m, RequiredKeys);
    var ks := RequiredKeys;
    assert ks[0] == "components" && ks[1] == "dish_name" && ks[2] == "weight_grams" && ks[3] == "calories_total";
    assert ks[4] == "protein_g" && ks[5] == "fat_g" && ks[6] == "carbs_g";
    assert (forall i :: 0 <= i < |ks| ==> ks[i] in m) ==> HasRequiredKeys(m);
  }

  /**
   * The reply is accepted exactly when it is a dict with all seven keys
   * whose `components` is a non-empty list; a dict is never a reason to raise.
   */
  lemma ValidateCorrectionResultIff(v: Value)
    ensures ValidateCorrectionResult(v) == Some(true) <==>
      v.Object? && HasRequiredKeys(v.fields) && v.fields["components"].Array? && |v.fields["components"].items| > 0
    ensures v.Object? ==> ValidateCorrectionResult(v).Some?
    ensures v.Num? || v.Null? ==> ValidateCorrectionResult(v).None?
  {
    if v.Object? {
      ObjectKeysCheck(v.fields);
    }
  }

  // ---------------------------------------------------------------------
  // _merge_correction
  // ---------------------------------------------------------------------

  /** `float(v)`: a number, or a string read as one; `None` where Python raises. */
  function ToFloat(v: Value): Option<real>
  {
    match v
    case Num(x) => Some(x)
    case Str(s) => UserInputValidator.ParseFloat(s)
    case _ => None
  }

  /**
   * One corrected component after the normalising loop: weight and calories
   * `int(round(·))`, macros `round(·, 1)`, missing values 0 and a missing
   * confidence 0.7; `None` where Python raises.
   */
  function NormaliseComponent(c: Value): Option<Component>
  {
    if !c.Object? then None
    else
      var m := c.fields;
      var weight := RoundToInt(Get(m, "weight_g", Num(0.0)));
      var calories := RoundToInt(Get(m, "calories", Num(0.0)));
      var protein := RoundToTenth(Get(m, "protein_g", Num(0.0)));
      var fat := RoundToTenth(Get(m, "fat_g", Num(0.0)));
      var carbs := RoundToTenth(Get(m, "carbs_g", Num(0.0)));
      var confidence := ToFloat(Get(m, "confidence", Num(0.7)));
      if weight.Some? && calories.Some? && protein.Some? && fat.Some? && carbs.Some? && confidence.Some? then
        Some(Component(TextOf(Get(m, "name", Null)), Some(weight.value as real), Some(calories.value as real),
                       protein, fat, carbs, confidence))
      else None
  }

  /** Every component normalised, in order; `None` as soon as one raises. */
  function NormaliseAll(cs: seq<Value>): Option<seq<Component>>
  {
    if |cs| == 0 then Some([])
    else match NormaliseAll(cs[..|cs| - 1])
      case None => None
      case Some(done) =>
        match NormaliseComponent(cs[|cs| - 1])
        case None => None
        case Some(c) => Some(done + [c])
  }

  /** `calories_total / weight_grams * 100` when the weight is positive, else 0. */
  function DefaultPer100g(calories: real, weight: real): real
  {
    if weight > 0.0 then calories / weight * 100.0 else 0.0
  }

  /** The keys of the analysis the merge overwrites. */
  function MergedTotals(original: Analysis, m: map<string, Value>, comps: seq<Component>, weight: int, calories: int): Option<Analysis>
    requires HasRequiredKeys(m) && m["weight_grams"].Num? && m["calories_total"].Num?
  {
    var per100g := RoundToTenth(Get(m, "calories_per_100g", Num(DefaultPer100g(m["calories_total"].n, m["weight_grams"].n))));
    var protein := RoundToTenth(m["protein_g"]);
    var fat := RoundToTenth(m["fat_g"]);
    var carbs := RoundToTenth(m["carbs_g"]);
    var health := RoundToInt(Get(m, "health_score", Num(GetOr(original.healthScore, 5.0))));
    if per100g.Some? && protein.Some? && fat.Some? && carbs.Some? && health.Some? then
      Some(original.(
        components := Some(comps),
        dishName := if "dish_name" in m then TextOf(m["dish_name"]) else original.dishName,
        weightGrams := Some(weight as real),
        caloriesTotal := Some(calories as real),
        caloriesPer100g := per100g,
        proteinG := protein,
        fatG := fat,
        carbsG := carbs,
        healthScore := Some(health.value as real),
        correctionApplied := if "correction_applied" in m then TextOf(m["correction_applied"]) else original.correctionApplied))
    else None
  }

  /** `_merge_correction`; `None` where it raises. */
  function Merged(original: Analysis, m: map<string, Value>): Option<Analysis>
    requires HasRequiredKeys(m) && m["components"].Array?
  {
    var comps := NormaliseAll(m["components"].items);
    var weight := RoundToInt(m["weight_grams"]);
    var calories := RoundToInt(m["calories_total"]);
    if comps.Some? && weight.Some? && calories.Some? then
      MergedTotals(original, m, comps.value, weight.value, calories.value)
    else None
  }

  /** Once one component raises, the whole list does. */
  lemma {:induction false} NormaliseFailsOnward(cs: seq<Value>, k: nat)
    requires k <= |cs| && NormaliseAll(cs[..k]).None?
    ensures NormaliseAll(cs).None?
    decreases |cs| - k
  {
    if k == |cs| {
      assert cs[..k] == cs;
    } else {
      assert cs[..k + 1][..k] == cs[..k];
      NormaliseFailsOnward(cs, k + 1);
    }
  }

  /**
   * `_merge_correction`: the components are normalised one by one (the
   * first one that raises ends the merge), then the totals are written
   * over a copy of the original.
   */
  method MergeCorrection(original: Analysis, corrected: map<string, Value>) returns (merged: Option<Analysis>)
    requires HasRequiredKeys(corrected) && corrected["components"].Array?
    ensures merged == Merged(original, corrected)
  {
    var items := corrected["components"].items;
    var normalised: seq<Component> := [];
    var i := 0;
    while i < |items|
      invariant 0 <= i <= |items|
      invariant NormaliseAll(items[..i]) == Some(normalised)
    {
      var c := NormaliseComponent(items[i]);
      assert items[..i + 1][..i] == items[..i];
      if c.None? {
        NormaliseFailsOnward(items, i + 1);
        return None;
      }
      normalised := normalised + [c.value];
      i := i + 1;
    }
    assert items[..i] == items;
    var weight := RoundToInt(corrected["weight_grams"]);
    var calories := RoundToInt(corrected["calories_total"]);
    if weight.None? || calories.None? {
      return None;
    }
    merged := MergedTotals(original, corrected, normalised, weight.value, calories.value);
  }

  // ---------------------------------------------------------------------
  // apply_correction
  // ---------------------------------------------------------------------

  /** A component line of `_create_correction_user_prompt` reads these six keys by indexing. */
  predicate PromptFields(c: Component)
  {
    c.name.Some? && c.weightG.Some? && c.calories.Some? && c.proteinG.Some? && c.fatG.Some? && c.carbsG.Some?
  }

  /** The user prompt can be built: no component of the original lacks a key the prompt reads. */
  predicate PromptBuilds(original: Analysis)
  {
    forall c :: c in GetOr(original.components, []) ==> PromptFields(c)
  }

  /**
   * `apply_correction` once the model's reply is known. The prompt is built
   * before the request, inside the same `try`: a missing key raises there.
   */
  function ApplyOutcome(original: Analysis, reply: Option<Value>): CorrectionParser.Outcome
  {
    if !PromptBuilds(original) then CorrectionParser.Outcome(false, None, Some(AiFailed))
    else if reply.None? || reply.value.Null? then CorrectionParser.Outcome(false, None, Some(NoAiResult))
    else match ValidateCorrectionResult(reply.value)
      case None => CorrectionParser.Outcome(false, None, Some(AiFailed))
      case Some(false) => CorrectionParser.Outcome(false, None, Some(BadAiResult))
      case Some(true) =>
        ValidateCorrectionResultIff(reply.value);
        match Merged(original, reply.value.fields)
        case None => CorrectionParser.Outcome(false, None, Some(AiFailed))
        case Some(updated) => CorrectionParser.Outcome(true, Some(updated), None)
  }

  /** `apply_correction`: check the reply, then merge it. */
  method ApplyCorrection(original: Analysis, reply: Option<Value>) returns (outcome: CorrectionParser.Outcome)
    ensures outcome == ApplyOutcome(original, reply)
  {
    if !PromptBuilds(original) {
      return CorrectionParser.Outcome(false, None, Some(AiFailed));
    }
    if reply.None? || reply.value.Null? {
      return CorrectionParser.Outcome(false, None, Some(NoAiResult));
    }
    var valid := ValidateCorrectionResult(reply.value);
    if valid.None? {
      return CorrectionParser.Outcome(false, None, Some(AiFailed));
    }
    if !valid.value {
      return CorrectionParser.Outcome(false, None, Some(BadAiResult));
    }
    ValidateCorrectionResultIff(reply.value);
    var merged := MergeCorrection(original, reply.value.fields);
    if merged.None? {
      return CorrectionParser.Outcome(false, None, Some(AiFailed));
    }
    outcome := CorrectionParser.Outcome(true, merged, None);
  }

  // ---------------------------------------------------------------------
  // Properties
  // ---------------------------------------------------------------------

  /** What `_validate_correction_result` accepts: an object with the seven keys and a non-empty component list. */
  predicate ValidReply(v: Value)
  {
    v.Object? && HasRequiredKeys(v.fields) && v.fields["components"].Array? && |v.fields["components"].items| > 0
  }

  /**
   * Success comes with an analysis and no message, failure with a message
   * and no analysis; an original component without one of the prompt's keys
   * fails before the request; success needs a dict with the seven keys and
   * a non-empty component list.
   */
  lemma OutcomeShape(original: Analysis, reply: Option<Value>)
    ensures var o := ApplyOutcome(original, reply);
      && (o.success <==> o.updated.Some?)
      && (o.success <==> o.error.None?)
      && (!PromptBuilds(original) ==> o.error == Some(AiFailed))
      && (PromptBuilds(original) && reply.None? ==> o.error == Some(NoAiResult))
      && (o.success ==> PromptBuilds(original) && reply.Some? && ValidReply(reply.value))
  {
    if reply.Some? {
      ValidateCorrectionResultIff(reply.value);
    }
  }

  /**
   * The outcome of a request that got through: a null reply gives the
   * no-result message; a reply that fails the check gives the "incorrect
   * data" message; a valid reply gives success with the
   * merged analysis, or the error message when the merge raises.
   */
  lemma OutcomeOfReply(original: Analysis, v: Value)
    requires PromptBuilds(original)
    ensures var o := ApplyOutcome(original, Some(v));
      && (v.Null? ==> o == CorrectionParser.Outcome(false, None, Some(NoAiResult)))
      && (v.Object? && !ValidReply(v) ==> o == CorrectionParser.Outcome(false, None, Some(BadAiResult)))
      && (ValidReply(v) && Merged(original, v.fields).Some? ==>
            o == CorrectionParser.Outcome(true, Merged(original, v.fields), None))
      && (ValidReply(v) && Merged(original, v.fields).None? ==>
            o == CorrectionParser.Outcome(false, None, Some(AiFailed)))
  {
    ValidateCorrectionResultIff(v);
  }

  /** An original component without one of the prompt's keys fails the correction, whatever the reply. */
  lemma MissingPromptKeyFails(original: Analysis, reply: Option<Value>, c: Component)
    requires c in GetOr(original.components, []) && !PromptFields(c)
    ensures ApplyOutcome(original, reply) == CorrectionParser.Outcome(false, None, Some(AiFailed))
  {
  }

  /** The merge starts from a copy of the original: every key it does not write keeps its value. */
  lemma MergeKeepsOtherKeys(original: Analysis, m: map<string, Value>)
    requires HasRequiredKeys(m) && m["components"].Array?
    ensures var r := Merged(original, m);
      r.Some? ==>
        && r.value.warnings == original.warnings
        && r.value.detailedAnalysis == original.detailedAnalysis
        && r.value.recommendations == original.recommendations
        && r.value.portionAdvice == original.portionAdvice
        && r.value.source == original.source
        && r.value.audioTranscription == original.audioTranscription
        && r.value.transcriptionUsed == original.transcriptionUsed
        && r.value.aggregationMetadata == original.aggregationMetadata
        && ("correction_applied" !in m ==> r.value.correctionApplied == original.correctionApplied)
  {
  }

  /**
   * The merged totals: weight and calories rounded to whole numbers, macros
   * to a tenth, the health score from the reply, else the original's, else 5.
   */
  lemma MergedTotalsRounded(original: Analysis, m: map<string, Value>)
    requires HasRequiredKeys(m) && m["components"].Array?
    ensures var r := Merged(original, m);
      r.Some? ==>
        && m["weight_grams"].Num? && r.value.weightGrams == Some(RoundHalfEven(m["weight_grams"].n) as real)
        && m["calories_total"].Num? && r.value.caloriesTotal == Some(RoundHalfEven(m["calories_total"].n) as real)
        && m["protein_g"].Num? && r.value.proteinG == Some(Round1(m["protein_g"].n))
        && m["fat_g"].Num? && r.value.fatG == Some(Round1(m["fat_g"].n))
        && m["carbs_g"].Num? && r.value.carbsG == Some(Round1(m["carbs_g"].n))
        && r.value.healthScore == Some(RoundHalfEven(
             if "health_score" in m then m["health_score"].n else GetOr(original.healthScore, 5.0)) as real)
  {
  }

  /** Without `calories_per_100g` in the reply, it is worked out from the merged totals, and is 0 for no weight. */
  lemma MergedPer100g(original: Analysis, m: map<string, Value>)
    requires HasRequiredKeys(m) && m["components"].Array?
    requires "calories_per_100g" !in m
    ensures var r := Merged(original, m);
      r.Some? ==>
        && r.value.caloriesPer100g == Some(Round1(DefaultPer100g(m["calories_total"].n, m["weight_grams"].n)))
        && (m["weight_grams"].n <= 0.0 ==> r.value.caloriesPer100g == Some(0.0))
  {
    assert RoundHalfEven(0.0) == 0;
  }

  /** A normalised component has whole-number weight and calories, macros to a tenth, and confidence 0.7 unless given. */
  lemma NormalisedComponent(c: Value)
    requires NormaliseComponent(c).Some?
    ensures var k := NormaliseComponent(c).value;
      && c.Object?
      && k.weightG == Some(RoundHalfEven(Get(c.fields, "weight_g", Num(0.0)).n) as real)
      && k.calories == Some(RoundHalfEven(Get(c.fields, "calories", Num(0.0)).n) as real)
      && k.proteinG == Some(Round1(Get(c.fields, "protein_g", Num(0.0)).n))
      && ("confidence" !in c.fields ==> k.confidence == Some(0.7))
      && ("confidence" in c.fields && c.fields["confidence"].Num? ==> k.confidence == Some(c.fields["confidence"].n))
  {
  }

  /** The merged components are the reply's, each normalised, in the same order. */
  lemma {:induction false} NormaliseAllPointwise(cs: seq<Value>)
    ensures NormaliseAll(cs).Some? <==> forall i :: 0 <= i < |cs| ==> NormaliseComponent(cs[i]).Some?
    ensures NormaliseAll(cs).Some? ==>
      |NormaliseAll(cs).value| == |cs|
      && forall i :: 0 <= i < |cs| ==> NormaliseAll(cs).value[i] == NormaliseComponent(cs[i]).value
    decreases |cs|
  {
    if |cs| > 0 {
      var n := |cs| - 1;
      NormaliseAllPointwise(cs[..n]);
      NormaliseStep(cs);
    }
  }

  /** One step of `NormaliseAll`: the prefix's result with the last component added. */
  lemma NormaliseStep(cs: seq<Value>)
    requires |cs| > 0
    requires var n := |cs| - 1;
      && (NormaliseAll(cs[..n]).Some? <==> forall i :: 0 <= i < n ==> NormaliseComponent(cs[i]).Some?)
      && (NormaliseAll(cs[..n]).Some? ==>
          |NormaliseAll(cs[..n]).value| == n
          && forall i :: 0 <= i < n ==> NormaliseAll(cs[..n]).value[i] == NormaliseComponent(cs[i]).value)
    ensures NormaliseAll(cs).Some? <==> forall i :: 0 <= i < |cs| ==> NormaliseComponent(cs[i]).Some?
    ensures NormaliseAll(cs).Some? ==>
      |NormaliseAll(cs).value| == |cs|
      && forall i :: 0 <= i < |cs| ==> NormaliseAll(cs).value[i] == NormaliseComponent(cs[i]).value
  {
    var n := |cs| - 1;
    var prev, last := NormaliseAll(cs[..n]), NormaliseComponent(cs[n]);
    if prev.Some? && last.Some? {
      var r := prev.value + [last.value];
      assert NormaliseAll(cs) == Some(r);
      assert forall i :: 0 <= i < n ==> r[i] == prev.value[i];
    } else {
      assert NormaliseAll(cs).None?;
      assert !(forall i :: 0 <= i < |cs| ==> NormaliseComponent(cs[i]).Some?) by {
        if last.Some? {
          var j :| 0 <= j < n && NormaliseComponent(cs[j]).None?;
          assert NormaliseComponent(cs[j]).None?;
        }
      }
    }
  }
}
