/**
 * Applying a recognised correction to an analysis (`CorrectionParser` in
 * modules/nutrition/correction_parser.py).
 *
 * The analysis dictionary is an object that the parser changes in place:
 * its component list is filtered, extended, renamed or rescaled, and the
 * totals are then written back from the components. `Food.AnalysisDict` is
 * that object; the methods update it and the functions beside them say what
 * the new contents are.
 */
module CorrectionParser {
  import opened Common
  import opened Food
  import opened CorrectionValidator

  /** `analysis.get('components', [])`. */
  function ComponentsOf(an: Analysis): seq<Component>
  {
    GetOr(an.components, [])
  }

  // ---------------------------------------------------------------------
  // Totals
  // ---------------------------------------------------------------------

  /** `(cal / weight * 100) if weight > 0 else 0`, rounded to one decimal. */
  function Density(weight: real, calories: real): real
  {
    if weight > 0.0 then Round1(calories / weight * 100.0) else 0.0
  }

  /** `_recalculate_totals`: the analysis with its totals taken from its components. */
  function WithTotals(an: Analysis): Analysis
  {
    var cs := ComponentsOf(an);
    an.(weightGrams := Some(Total(cs, WeightField)),
        caloriesTotal := Some(Total(cs, CaloriesField)),
        caloriesPer100g := Some(Density(Total(cs, WeightField), Total(cs, CaloriesField))),
        proteinG := Some(Total(cs, ProteinField)),
        fatG := Some(Total(cs, FatField)),
        carbsG := Some(Total(cs, CarbsField)))
  }

  /** Every total of the analysis is the sum over its components. */
  ghost predicate TotalsAgree(an: Analysis)
  {
    var cs := ComponentsOf(an);
    an.weightGrams == Some(Total(cs, WeightField))
    && an.caloriesTotal == Some(Total(cs, CaloriesField))
    && an.proteinG == Some(Total(cs, ProteinField))
    && an.fatG == Some(Total(cs, FatField))
    && an.carbsG == Some(Total(cs, CarbsField))
    && an.caloriesPer100g == Some(Density(Total(cs, WeightField), Total(cs, CaloriesField)))
  }

  /** Recalculating makes the totals agree with the components and touches nothing else. */
  lemma WithTotalsAgree(an: Analysis)
    ensures TotalsAgree(WithTotals(an))
    ensures WithTotals(an).components == an.components && WithTotals(an).dishName == an.dishName
    ensures WithTotals(an).healthScore == an.healthScore && WithTotals(an).warnings == an.warnings
  {
  }

  /** The energy density of recalculated totals is never negative when no component is. */
  lemma {:induction false} TotalNonNegative(cs: seq<Component>, f: Field)
    requires forall i :: 0 <= i < |cs| ==> ComponentField(cs[i], f) >= 0.0
    ensures Total(cs, f) >= 0.0
    decreases |cs|
  {
    if |cs| > 0 {
      TotalNonNegative(cs[..|cs| - 1], f);
    }
  }

  /** `_recalculate_totals`, one running sum per field. */
  method RecalculateTotals(a: AnalysisDict)
    modifies a
    ensures a.data == WithTotals(old(a.data))
  {
    var components := ComponentsOf(a.data);
    var weight, calories, protein, fat, carbs := 0.0, 0.0, 0.0, 0.0, 0.0;
    for i := 0 to |components|
      invariant weight == Total(components[..i], WeightField)
      invariant calories == Total(components[..i], CaloriesField)
      invariant protein == Total(components[..i], ProteinField)
      invariant fat == Total(components[..i], FatField)
      invariant carbs == Total(components[..i], CarbsField)
    {
      assert components[..i + 1][..i] == components[..i];
      var c := components[i];
      weight := weight + GetOr(c.weightG, 0.0);
      calories := calories + GetOr(c.calories, 0.0);
      protein := protein + GetOr(c.proteinG, 0.0);
      fat := fat + GetOr(c.fatG, 0.0);
      carbs := carbs + GetOr(c.carbsG, 0.0);
    }
    assert components[..|components|] == components;
    var per100g := if weight > 0.0 then calories / weight * 100.0 else 0.0;
    a.data := a.data.(weightGrams := Some(weight), caloriesTotal := Some(calories),
                      caloriesPer100g := Some(if weight > 0.0 then Round1(per100g) else 0.0),
                      proteinG := Some(protein), fatG := Some(fat), carbsG := Some(carbs));
  }

  // ---------------------------------------------------------------------
  // Removal
  // ---------------------------------------------------------------------

  /** `comp.get('name', '').lower()`. */
  function NameOf(c: Component): string
  {
    Lower(GetOr(c.name, ""))
  }

  /** A component stays when neither its lower-cased name nor `item` contains the other. */
  predicate Survives(c: Component, item: string)
  {
    !Contains(NameOf(c), item) && !Contains(item, NameOf(c))
  }

  /** The components that survive the removal of `item`, in their order. */
  function Kept(cs: seq<Component>, item: string): (r: seq<Component>)
    ensures |r| <= |cs|
  {
    if |cs| == 0 then []
    else
      var rest := Kept(cs[..|cs| - 1], item);
      if Survives(cs[|cs| - 1], item) then rest + [cs[|cs| - 1]] else rest
  }

  /** `_apply_remove`: filter the components, then recalculate. */
  method ApplyRemove(a: AnalysisDict, item: string)
    modifies a
    ensures a.data == WithTotals(old(a.data).(components := Some(Kept(ComponentsOf(old(a.data)), Lower(item)))))
  {
    var itemToRemove := Lower(item);
    var components := ComponentsOf(a.data);
    var updated: seq<Component> := [];
    for i := 0 to |components|
      invariant updated == Kept(components[..i], itemToRemove)
    {
      assert components[..i + 1][..i] == components[..i];
      var compName := NameOf(components[i]);
      if !Contains(compName, itemToRemove) && !Contains(itemToRemove, compName) {
        updated := updated + [components[i]];
      }
    }
    assert components[..|components|] == components;
    a.data := a.data.(components := Some(updated));
    RecalculateTotals(a);
  }

  /** A component is kept exactly when it was there and survives. */
  lemma {:induction false} KeptExactly(cs: seq<Component>, item: string)
    ensures forall c :: c in Kept(cs, item) <==> c in cs && Survives(c, item)
    decreases |cs|
  {
    if |cs| > 0 {
      KeptExactly(cs[..|cs| - 1], item);
      assert cs == cs[..|cs| - 1] + [cs[|cs| - 1]];
    }
  }

  /** When nothing matches, the list comes back as it was. */
  lemma {:induction false} KeptAll(cs: seq<Component>, item: string)
    requires forall i :: 0 <= i < |cs| ==> Survives(cs[i], item)
    ensures Kept(cs, item) == cs
    decreases |cs|
  {
    if |cs| > 0 {
      KeptAll(cs[..|cs| - 1], item);
      assert cs == cs[..|cs| - 1] + [cs[|cs| - 1]];
    }
  }

  /** Removal keeps the relative order: what is kept from a prefix is a prefix of what is kept. */
  lemma {:induction false} KeptPrefix(cs: seq<Component>, n: nat, item: string)
    requires n <= |cs|
    ensures Kept(cs[..n], item) <= Kept(cs, item)
    decreases |cs| - n
  {
    if n < |cs| {
      KeptPrefix(cs[..|cs| - 1], n, item);
      assert cs[..|cs| - 1][..n] == cs[..n];
    } else {
      assert cs[..n] == cs;
    }
  }

  /** The empty string is inside every item, so a nameless component is always removed. */
  lemma NamelessRemoved(c: Component, item: string)
    requires NameOf(c) == ""
    ensures !Survives(c, item)
  {
    assert PrefixAt(item, 0, "");
  }

  // ---------------------------------------------------------------------
  // Addition
  // ---------------------------------------------------------------------

  /** The component `_apply_add` builds: 2 kcal per gram, split 15/30/55 between protein, fat and carbohydrate. */
  function NewComponent(item: string, weight: real): Component
  {
    var calories := Trunc(weight * 2.0) as real;
    Component(Some(Capitalize(item)), Some(weight), Some(calories),
              Some(Trunc(calories * 0.15 / 4.0) as real),
              Some(Trunc(calories * 0.30 / 9.0) as real),
              Some(Trunc(calories * 0.55 / 4.0) as real),
              Some(0.5))
  }

  /** The message of the `TypeError` that `None * 2` raises. */
  const NoneTimesInt := "unsupported operand type(s) for *: 'NoneType' and 'int'"

  /**
   * `details.get('weight', 100)`: the detector always stores the key, so a
   * message without a weight hands on `None`, not the default.
   */
  function AddWeight(weight: Option<nat>): Option<real>
  {
    if weight.Some? then Some(weight.value as real) else None
  }

  /** `_apply_add`: append the new component and recalculate, or raise on a missing weight. */
  method ApplyAdd(a: AnalysisDict, item: string, weight: Option<nat>) returns (raised: Option<string>)
    modifies a
    ensures AddWeight(weight).None? ==> raised == Some(NoneTimesInt) && a.data == old(a.data)
    ensures AddWeight(weight).Some? ==> raised.None?
    ensures AddWeight(weight).Some? ==>
      a.data == WithTotals(old(a.data).(components := Some(ComponentsOf(old(a.data)) + [NewComponent(item, AddWeight(weight).value)])))
  {
    var w := AddWeight(weight);
    if w.None? {
      return Some(NoneTimesInt);
    }
    var newComponent := NewComponent(item, w.value);
    var components := ComponentsOf(a.data);
    components := components + [newComponent];
    a.data := a.data.(components := Some(components));
    RecalculateTotals(a);
    raised := None;
  }

  /** A user-added component never claims more energy from its macros than its calories, and nothing is negative. */
  lemma NewComponentEnergy(item: string, weight: real)
    requires weight >= 0.0
    ensures var c := NewComponent(item, weight);
      c.calories.value >= 0.0 && c.proteinG.value >= 0.0 && c.fatG.value >= 0.0 && c.carbsG.value >= 0.0
      && 4.0 * c.proteinG.value + 9.0 * c.fatG.value + 4.0 * c.carbsG.value <= c.calories.value
  {
  }

  /** Adding raises every total by the new component's value, when the totals agreed before. */
  lemma AddRaisesTotals(an: Analysis, c: Component, f: Field)
    requires TotalsAgree(an)
    ensures Total(ComponentsOf(WithTotals(an.(components := Some(ComponentsOf(an) + [c])))), f)
         == Total(ComponentsOf(an), f) + ComponentField(c, f)
  {
    TotalAppend(ComponentsOf(an), c, f);
  }

  // ---------------------------------------------------------------------
  // Renaming
  // ---------------------------------------------------------------------

  /** `old_item in comp_name or comp_name in old_item`. */
  predicate Names(c: Component, oldItem: string)
  {
    Contains(NameOf(c), oldItem) || Contains(oldItem, NameOf(c))
  }

  /** Index of the first component that `oldItem` names, or `|cs|`. */
  function FirstNamed(cs: seq<Component>, oldItem: string): (k: nat)
    ensures k <= |cs|
    ensures k < |cs| ==> Names(cs[k], oldItem)
    ensures forall j :: 0 <= j < k ==> !Names(cs[j], oldItem)
  {
    if |cs| == 0 then 0
    else if Names(cs[0], oldItem) then 0
    else 1 + FirstNamed(cs[1..], oldItem)
  }

  /** The component under its new name, trusted at 0.7; everything else kept. */
  function Renamed(c: Component, newItem: string): Component
  {
    c.(name := Some(Capitalize(newItem)), confidence := Some(0.7))
  }

  /** `_apply_modify`'s list: only the first named component changes. */
  function RenameFirst(cs: seq<Component>, oldItem: string, newItem: string): seq<Component>
  {
    var k := FirstNamed(cs, oldItem);
    if k < |cs| then cs[k := Renamed(cs[k], newItem)] else cs
  }

  /** `_apply_modify`: rename the first match and stop; the totals are left as they were. */
  method ApplyModify(a: AnalysisDict, oldItem: string, newItem: string)
    modifies a
    ensures a.data == old(a.data).(components := Some(RenameFirst(ComponentsOf(old(a.data)), Lower(oldItem), newItem)))
  {
    var item := Lower(oldItem);
    var components := ComponentsOf(a.data);
    var i := 0;
    while i < |components|
      invariant i <= |components| && components == ComponentsOf(a.data)
      invariant forall j :: 0 <= j < i ==> !Names(components[j], item)
    {
      var compName := NameOf(components[i]);
      if Contains(item, compName) || Contains(compName, item) {
        assert FirstNamed(components, item) == i;
        components := components[i := Renamed(components[i], newItem)];
        break;
      }
      i := i + 1;
    }
    a.data := a.data.(components := Some(components));
  }

  /** Renaming changes one component at most, the first named one, and keeps its weight and nutrients. */
  lemma RenameFirstOnly(cs: seq<Component>, oldItem: string, newItem: string)
    ensures var r := RenameFirst(cs, oldItem, newItem);
      |r| == |cs|
      && (forall j :: 0 <= j < |cs| && j != FirstNamed(cs, oldItem) ==> r[j] == cs[j])
      && (forall f :: Total(r, f) == Total(cs, f))
      && ((forall j :: 0 <= j < |cs| ==> !Names(cs[j], oldItem)) ==> r == cs)
  {
    var k := FirstNamed(cs, oldItem);
    var r := RenameFirst(cs, oldItem, newItem);
    if k < |cs| {
      assert r == cs[k := Renamed(cs[k], newItem)];
      forall f
        ensures Total(r, f) == Total(cs, f)
      {
        TotalCongruent(r, cs, f);
      }
    } else {
      assert r == cs;
    }
  }

  // ---------------------------------------------------------------------
  // Weight change
  // ---------------------------------------------------------------------

  /** `x * scale`. */
  function Product(x: real, s: real): real
  {
    x * s
  }

  /** `comp.get(field, 0) * scale`. */
  function ScaledField(value: Option<real>, s: real): real
  {
    Product(GetOr(value, 0.0), s)
  }

  /** One component scaled: weight and calories truncated, nutrients rounded to 0.1. */
  function Scaled(c: Component, s: real): Component
  {
    c.(weightG := Some(Trunc(ScaledField(c.weightG, s)) as real),
       calories := Some(Trunc(ScaledField(c.calories, s)) as real),
       proteinG := Some(Round1(ScaledField(c.proteinG, s))),
       fatG := Some(Round1(ScaledField(c.fatG, s))),
       carbsG := Some(Round1(ScaledField(c.carbsG, s))))
  }

  /** Every component scaled, in order. */
  function ScaledAll(cs: seq<Component>, s: real): (r: seq<Component>)
    ensures |r| == |cs|
  {
    if |cs| == 0 then [] else ScaledAll(cs[..|cs| - 1], s) + [Scaled(cs[|cs| - 1], s)]
  }

  /** `_apply_weight_change`: nothing happens at a current weight of 0; otherwise scale every component and recalculate. */
  method ApplyWeightChange(a: AnalysisDict, newWeight: nat)
    modifies a
    ensures GetOr(old(a.data).weightGrams, 0.0) == 0.0 ==> a.data == old(a.data)
    ensures GetOr(old(a.data).weightGrams, 0.0) != 0.0 ==>
      a.data == WithTotals(old(a.data).(components := Some(ScaledAll(ComponentsOf(old(a.data)),
                                                                 newWeight as real / GetOr(old(a.data).weightGrams, 0.0)))))
  {
    var current := GetOr(a.data.weightGrams, 0.0);
    if current == 0.0 {
      return;
    }
    var scale := newWeight as real / current;
    var components := ComponentsOf(a.data);
    var scaled: seq<Component> := [];
    for i := 0 to |components|
      invariant scaled == ScaledAll(components[..i], scale)
    {
      assert components[..i + 1][..i] == components[..i];
      scaled := scaled + [Scaled(components[i], scale)];
    }
    assert components[..|components|] == components;
    a.data := a.data.(components := Some(scaled));
    RecalculateTotals(a);
  }

  /** The last component's share of the scaled and of the original weight totals. */
  lemma ScaledWeightLast(cs: seq<Component>, s: real)
    requires |cs| > 0
    ensures var n := |cs| - 1;
      Total(ScaledAll(cs, s), WeightField)
        == Total(ScaledAll(cs[..n], s), WeightField) + Trunc(ScaledField(cs[n].weightG, s)) as real
      && Total(cs, WeightField) == Total(cs[..n], WeightField) + GetOr(cs[n].weightG, 0.0)
  {
    var n := |cs| - 1;
    TotalAppend(ScaledAll(cs[..n], s), Scaled(cs[n], s), WeightField);
  }

  /** One more truncated term keeps the sum within one unit per term below the exact sum. */
  lemma TruncStep(scaled: real, exact: real, n: nat, w: real, s: real)
    requires 0.0 <= w && 0.0 <= s
    requires scaled <= Product(exact, s)
    requires n > 0 ==> Product(exact, s) - n as real < scaled
    requires n == 0 ==> scaled == 0.0 && exact == 0.0
    ensures scaled + Trunc(Product(w, s)) as real <= Product(exact + w, s)
    ensures Product(exact + w, s) - (n + 1) as real < scaled + Trunc(Product(w, s)) as real
  {
    assert Product(exact + w, s) == Product(exact, s) + Product(w, s);
    assert 0.0 <= Product(w, s);
  }

  /** Truncating each scaled weight loses less than one gram per component and never adds any. */
  lemma {:induction false} ScaledWeightBounds(cs: seq<Component>, s: real)
    requires s >= 0.0
    requires forall i :: 0 <= i < |cs| ==> GetOr(cs[i].weightG, 0.0) >= 0.0
    ensures Total(ScaledAll(cs, s), WeightField) <= Product(Total(cs, WeightField), s)
    ensures |cs| > 0 ==> Product(Total(cs, WeightField), s) - |cs| as real < Total(ScaledAll(cs, s), WeightField)
    ensures |cs| == 0 ==> Total(ScaledAll(cs, s), WeightField) == 0.0 && Total(cs, WeightField) == 0.0
    decreases |cs|
  {
    if |cs| > 0 {
      var n := |cs| - 1;
      ScaledWeightBounds(cs[..n], s);
      ScaledWeightLast(cs, s);
      TruncStep(Total(ScaledAll(cs[..n], s), WeightField), Total(cs[..n], WeightField), n, GetOr(cs[n].weightG, 0.0), s);
    }
  }

  /**
   * With totals that agree and no negative weight, the new total lies in
   * (target - n, target] for n components: each component rounds down by
   * less than a gram.
   */
  lemma WeightChangeLandsBelowTarget(an: Analysis, newWeight: nat)
    requires TotalsAgree(an) && GetOr(an.weightGrams, 0.0) != 0.0
    requires forall i :: 0 <= i < |ComponentsOf(an)| ==> GetOr(ComponentsOf(an)[i].weightG, 0.0) >= 0.0
    ensures var cs := ComponentsOf(an);
      var total := Total(ScaledAll(cs, newWeight as real / an.weightGrams.value), WeightField);
      newWeight as real - |cs| as real < total <= newWeight as real
  {
    var cs := ComponentsOf(an);
    var current := an.weightGrams.value;
    TotalNonNegative(cs, WeightField);
    var s := newWeight as real / current;
    assert Product(current, s) == newWeight as real;
    ScaledWeightBounds(cs, s);
  }

  // ---------------------------------------------------------------------
  // parse_correction
  // ---------------------------------------------------------------------

  /** What a correction does to an analysis: the new analysis, or the exception text. */
  datatype Applied = Updated(analysis: Analysis) | Raised(message: string)

  /** The four `_apply_*` methods as they are written. */
  function Apply(c: Correction, an: Analysis): Applied
  {
    match c
    case Remove(item) => Updated(WithTotals(an.(components := Some(Kept(ComponentsOf(an), Lower(item))))))
    case Add(item, weight) =>
      (match AddWeight(weight)
       case None => Raised(NoneTimesInt)
       case Some(w) => Updated(WithTotals(an.(components := Some(ComponentsOf(an) + [NewComponent(item, w)])))))
    case Modify(oldItem, newItem) => Updated(an.(components := Some(RenameFirst(ComponentsOf(an), Lower(oldItem), newItem))))
    case ChangeWeight(w) =>
      var current := GetOr(an.weightGrams, 0.0);
      if current == 0.0 then Updated(an)
      else Updated(WithTotals(an.(components := Some(ScaledAll(ComponentsOf(an), w as real / current)))))
  }

  /** `(success, updated_analysis, error_message)`. */
  datatype Outcome = Outcome(success: bool, updated: Option<Analysis>, error: Option<string>)

  const NotRecognised := "Не удалось распознать коррекцию"
  const ApplyFailed := "Ошибка при применении коррекции: "

  /** `parse_correction` once the verdict and the detected correction are known. */
  function OutcomeOf(verdict: Verdict, detected: Option<Correction>, an: Analysis): Outcome
  {
    match verdict
    case Rejected(reason) => Outcome(false, None, Some(reason))
    case Accepted =>
      match detected
      case None => Outcome(false, None, Some(NotRecognised))
      case Some(c) =>
        match Apply(c, an)
        case Raised(e) => Outcome(false, None, Some(ApplyFailed + e))
        case Updated(r) => Outcome(true, Some(r), None)
  }

  /** `parse_correction`: validate, classify, apply. */
  function ParseOutcome(text: string, an: Analysis): Outcome
  {
    OutcomeOf(ValidateCorrection(text), Detect(text), an)
  }

  /** The dispatch inside `parse_correction`'s `try`: one `_apply_*` per correction type. */
  method ApplyCorrection(c: Correction, a: AnalysisDict) returns (raised: Option<string>)
    modifies a
    ensures raised.Some? ==> Apply(c, old(a.data)) == Raised(raised.value) && a.data == old(a.data)
    ensures raised.None? ==> Apply(c, old(a.data)) == Updated(a.data)
  {
    raised := None;
    match c {
      case Remove(item) =>
        ApplyRemove(a, item);
      case Add(item, weight) =>
        raised := ApplyAdd(a, item, weight);
      case Modify(oldItem, newItem) =>
        ApplyModify(a, oldItem, newItem);
      case ChangeWeight(w) =>
        ApplyWeightChange(a, w);
    }
  }

  /** `parse_correction`: the analysis is changed in place and handed back on success. */
  method ParseCorrection(text: string, a: AnalysisDict) returns (success: bool, updated: Option<AnalysisDict>, error: Option<string>)
    modifies a
    ensures Outcome(success, if updated.Some? then Some(a.data) else None, error) == ParseOutcome(text, old(a.data))
    ensures updated.Some? ==> updated.value == a
    ensures !success ==> a.data == old(a.data)
  {
    var verdict := ValidateCorrection(text);
    if verdict.Rejected? {
      return false, None, Some(verdict.reason);
    }
    var detected := DetectCorrectionType(text);
    if detected.None? {
      return false, None, Some(NotRecognised);
    }
    var raised := ApplyCorrection(detected.value, a);
    if raised.Some? {
      return false, None, Some(ApplyFailed + raised.value);
    }
    return true, Some(a), None;
  }

  /** Text the validator refuses is answered with the validator's own message. */
  lemma RejectedText(text: string, an: Analysis)
    requires ValidateCorrection(text).Rejected?
    ensures ParseOutcome(text, an) == Outcome(false, None, Some(ValidateCorrection(text).reason))
  {
  }

  /** After a removal, an addition with a weight, or a weight change from a non-zero weight, the totals agree with the components. */
  lemma AppliedTotalsAgree(c: Correction, an: Analysis)
    requires c.Remove? || (c.Add? && c.weight.Some?) || (c.ChangeWeight? && GetOr(an.weightGrams, 0.0) != 0.0)
    ensures Apply(c, an).Updated? && TotalsAgree(Apply(c, an).analysis)
  {
    match c
    case Remove(item) => WithTotalsAgree(an.(components := Some(Kept(ComponentsOf(an), Lower(item)))));
    case Add(item, weight) => WithTotalsAgree(an.(components := Some(ComponentsOf(an) + [NewComponent(item, weight.value as real)])));
    case ChangeWeight(w) =>
      WithTotalsAgree(an.(components := Some(ScaledAll(ComponentsOf(an), w as real / GetOr(an.weightGrams, 0.0)))));
  }

  // ---------------------------------------------------------------------
  // Adding without a weight
  // ---------------------------------------------------------------------

  /** An addition the detector found without a weight always fails: the 100 g default is never used. */
  lemma AddWithoutWeightFails(verdict: Verdict, item: string, an: Analysis)
    requires verdict == Accepted
    ensures OutcomeOf(verdict, Some(Add(item, None)), an) == Outcome(false, None, Some(ApplyFailed + NoneTimesInt))
  {
  }

  /** "добавь огурец" is accepted by the validator and then fails. */
  lemma AddCucumberFails(t: string, an: Analysis)
    requires t == "добавь огурец"
    ensures ParseOutcome(t, an) == Outcome(false, None, Some(ApplyFailed + NoneTimesInt))
  {
    DetectAddCucumber(t);
    StripUnchanged(t);
    AddWithoutWeightFails(ValidateCorrection(t), "огурец", an);
  }

  /** The weight an addition was meant to use: the one in the message, or 100 g. */
  function IntendedAddWeight(weight: Option<nat>): real
  {
    GetOr(weight, 100) as real
  }

  /** `Apply` with the 100 g default in force. */
  function ApplyIntended(c: Correction, an: Analysis): Applied
  {
    match c
    case Add(item, weight) =>
      Updated(WithTotals(an.(components := Some(ComponentsOf(an) + [NewComponent(item, IntendedAddWeight(weight))]))))
    case _ => Apply(c, an)
  }

  /** The component added without a weight: 100 g at 200 kcal, split 7/6/27 g. */
  lemma DefaultComponent(item: string)
    ensures NewComponent(item, 100.0)
      == Component(Some(Capitalize(item)), Some(100.0), Some(200.0), Some(7.0), Some(6.0), Some(27.0), Some(0.5))
  {
    assert Trunc(100.0 * 2.0) == 200;
    assert Trunc(200.0 * 0.15 / 4.0) == 7;
    assert Trunc(200.0 * 0.30 / 9.0) == 6;
    assert Trunc(200.0 * 0.55 / 4.0) == 27;
  }

  /** With the default, every addition succeeds, appends its component and leaves the totals in agreement. */
  lemma IntendedAddSucceeds(item: string, weight: Option<nat>, an: Analysis)
    ensures ApplyIntended(Add(item, weight), an).Updated?
    ensures var r := ApplyIntended(Add(item, weight), an).analysis;
      ComponentsOf(r) == ComponentsOf(an) + [NewComponent(item, IntendedAddWeight(weight))] && TotalsAgree(r)
    ensures weight.None? ==> IntendedAddWeight(weight) == 100.0
  {
    WithTotalsAgree(an.(components := Some(ComponentsOf(an) + [NewComponent(item, IntendedAddWeight(weight))])));
  }

  /** The default changes nothing for an addition that names its weight. */
  lemma IntendedAgreesWithWeight(item: string, w: nat, an: Analysis)
    ensures ApplyIntended(Add(item, Some(w)), an) == Apply(Add(item, Some(w)), an)
  {
  }
}
