/**
 * `DishComparator` (modules/nutrition/dish_comparator.py): compares an
 * analysed meal with the typical dishes of the database. The name score is
 * `difflib.SequenceMatcher(...).ratio()`, which this model takes as a
 * parameter `ratio`; the database's list of typical dishes is a parameter
 * too. Division by a zero `weight_grams` raises in the source; it is `None`
 * here.
 */
module DishComparator {
  import opened Common
  import opened Food
  import Sorting

  /** Energy and macros per 100 g. */
  datatype Per100g = Per100g(calories: real, protein: real, fat: real, carbs: real)

  /** A row of the typical-dishes table, with its `tags` already decoded to a list. */
  datatype TypicalDish = TypicalDish(dishName: string, per100g: Per100g, healthScore: int, tags: seq<string>)

  /** The `similarity` dict of one comparison. */
  datatype Similarity = Similarity(nameScore: real, nutritionScore: real, componentScore: real, totalScore: real)

  /** `{**typical_dish, 'similarity': similarity}`. */
  datatype Match = Match(dish: TypicalDish, similarity: Similarity)

  function TotalOf(m: Match): real
  {
    m.similarity.totalScore
  }

  // ---------------------------------------------------------------------
  // Nutrition similarity
  // ---------------------------------------------------------------------

  /** `grams / (weight / 100)`. */
  function PerHundred(grams: real, weight: real): real
    requires weight != 0.0
  {
    grams / (weight / 100.0)
  }

  /**
   * The meal's values per 100 g: the stated energy density, and the macros
   * divided by the weight (100 g when absent); `None` for a zero weight,
   * where the source divides by zero.
   */
  function UserPer100g(a: Analysis): (r: Option<Per100g>)
    ensures r.None? <==> GetOr(a.weightGrams, 100.0) == 0.0
  {
    var w := GetOr(a.weightGrams, 100.0);
    if w == 0.0 then None
    else Some(Per100g(GetOr(a.caloriesPer100g, 0.0), PerHundred(GetOr(a.proteinG, 0.0), w),
                      PerHundred(GetOr(a.fatG, 0.0), w), PerHundred(GetOr(a.carbsG, 0.0), w)))
  }

  /** `abs(user - typical) / max(typical, 1)`. */
  function RelativeDifference(user: real, typical: real): (r: real)
    ensures r >= 0.0
    ensures r == 0.0 <==> user == typical
  {
    Abs(user - typical) / Max(typical, 1.0)
  }

  /** `_nutrition_similarity`: one minus the mean relative difference, not below 0. */
  function NutritionScore(user: Per100g, typical: Per100g): real
  {
    var mean := (RelativeDifference(user.calories, typical.calories) + RelativeDifference(user.protein, typical.protein)
                 + RelativeDifference(user.fat, typical.fat) + RelativeDifference(user.carbs, typical.carbs)) / 4.0;
    Max(0.0, 1.0 - mean)
  }

  /** The nutrition score lies in [0, 1] and is 1 exactly when the four values per 100 g coincide. */
  lemma NutritionScoreRange(user: Per100g, typical: Per100g)
    ensures 0.0 <= NutritionScore(user, typical) <= 1.0
    ensures NutritionScore(user, typical) == 1.0 <==> user == typical
  {
  }

  // ---------------------------------------------------------------------
  // Component similarity
  // ---------------------------------------------------------------------

  /** `_get_tag_keywords`: the words standing for a tag. */
  const TagKeywordTable: map<string, seq<string>> := map[
    "fried" := ["жареный", "жареная", "фри"],
    "grilled" := ["гриль", "на гриле"],
    "boiled" := ["отварной", "отварная", "вареный"],
    "cheese" := ["сыр"],
    "meat" := ["мясо", "говядина", "свинина", "курица"],
    "vegetables" := ["овощи", "салат", "помидор", "огурец"],
    "sauce" := ["соус", "майонез", "кетчуп"],
    "bread" := ["хлеб", "булочка", "батон"]]

  /** `tag_keywords.get(tag, [tag])`. */
  function TagKeywords(tag: string): seq<string>
  {
    if tag in TagKeywordTable then TagKeywordTable[tag] else [tag]
  }

  /** `any(word in text for word in words)`. */
  predicate AnyIn(text: string, words: seq<string>)
  {
    exists k :: 0 <= k < |words| && Contains(text, words[k])
  }

  /** `comp.get('name', '').lower()`. */
  function ComponentName(c: Component): string
  {
    Lower(GetOr(c.name, ""))
  }

  /** A component stands for a tag when its name contains the tag or one of the tag's words. */
  predicate ComponentMatchesTag(c: Component, tag: string)
  {
    Contains(ComponentName(c), tag) || AnyIn(ComponentName(c), TagKeywords(tag))
  }

  /** Some component stands for the tag. */
  predicate TagMatched(tag: string, cs: seq<Component>)
  {
    exists k :: 0 <= k < |cs| && ComponentMatchesTag(cs[k], tag)
  }

  /** The number of tags some component stands for. */
  function MatchCount(tags: seq<string>, cs: seq<Component>): (n: nat)
    ensures n <= |tags|
  {
    if |tags| == 0 then 0
    else MatchCount(tags[..|tags| - 1], cs) + (if TagMatched(tags[|tags| - 1], cs) then 1 else 0)
  }

  /** `part / whole` for counts: a share in [0, 1], 1 exactly when all are counted. */
  function Fraction(part: nat, whole: nat): (r: real)
    requires 0 < whole && part <= whole
    ensures 0.0 <= r <= 1.0
    ensures r == 1.0 <==> part == whole
    ensures r == 0.0 <==> part == 0
  {
    part as real / whole as real
  }

  /** `_component_similarity`: 0.5 without tags or components, else the share of tags matched. */
  function ComponentScore(cs: seq<Component>, tags: seq<string>): real
  {
    if |tags| == 0 || |cs| == 0 then 0.5
    else Min(Fraction(MatchCount(tags, cs), |tags|), 1.0)
  }

  /** `_component_similarity`: for each tag, the components are searched until one stands for it. */
  method ComponentSimilarity(cs: seq<Component>, tags: seq<string>) returns (score: real)
    ensures score == ComponentScore(cs, tags)
  {
    if |tags| == 0 || |cs| == 0 {
      return 0.5;
    }
    var matches := 0;
    for t := 0 to |tags|
      invariant matches == MatchCount(tags[..t], cs)
    {
      var found := AnyComponentFor(cs, tags[t]);
      if found {
        matches := matches + 1;
      }
      assert tags[..t + 1][..t] == tags[..t];
    }
    assert tags[..|tags|] == tags;
    score := Min(Fraction(matches, |tags|), 1.0);
  }

  /** The inner loop of `_component_similarity`: the components are searched until one stands for the tag. */
  method AnyComponentFor(cs: seq<Component>, tag: string) returns (found: bool)
    ensures found == TagMatched(tag, cs)
  {
    var j := 0;
    found := false;
    while j < |cs| && !found
      invariant 0 <= j <= |cs|
      invariant !found ==> forall k :: 0 <= k < j ==> !ComponentMatchesTag(cs[k], tag)
      invariant found ==> TagMatched(tag, cs)
    {
      found := ComponentMatchesTag(cs[j], tag);
      j := j + 1;
    }
  }

  /**
   * The component score lies in [0, 1]; with tags and components it is 1
   * exactly when every tag is matched, and the cap at 1 never acts.
   */
  lemma ComponentScoreRange(cs: seq<Component>, tags: seq<string>)
    ensures 0.0 <= ComponentScore(cs, tags) <= 1.0
    ensures |tags| > 0 && |cs| > 0 ==>
      ComponentScore(cs, tags) == Fraction(MatchCount(tags, cs), |tags|)
    ensures |tags| > 0 && |cs| > 0 ==>
      (ComponentScore(cs, tags) == 1.0 <==> forall i :: 0 <= i < |tags| ==> TagMatched(tags[i], cs))
  {
    if |tags| > 0 && |cs| > 0 {
      MatchCountFull(tags, cs);
    }
  }

  /** Every tag is matched exactly when the count reaches the number of tags. */
  lemma {:induction false} MatchCountFull(tags: seq<string>, cs: seq<Component>)
    ensures MatchCount(tags, cs) == |tags| <==> forall i :: 0 <= i < |tags| ==> TagMatched(tags[i], cs)
  {
    if |tags| > 0 {
      var n := |tags| - 1;
      MatchCountFull(tags[..n], cs);
      assert forall i :: 0 <= i < n ==> tags[..n][i] == tags[i];
    }
  }

  // ---------------------------------------------------------------------
  // Overall similarity and the search
  // ---------------------------------------------------------------------

  /** `0.3 name + 0.4 nutrition + 0.3 component`. */
  function WeightedTotal(name: real, nutrition: real, component: real): real
  {
    name * 0.3 + nutrition * 0.4 + component * 0.3
  }

  /** `_calculate_similarity` for a meal whose values per 100 g are `user`. */
  function SimilarityOf(user: Per100g, cs: seq<Component>, dish: TypicalDish, nameScore: real): Similarity
  {
    var nutrition := NutritionScore(user, dish.per100g);
    var component := ComponentScore(cs, dish.tags);
    Similarity(nameScore, nutrition, component, WeightedTotal(nameScore, nutrition, component))
  }

  /** With a name score in [0, 1], every score of a comparison lies in [0, 1]. */
  lemma SimilarityRange(user: Per100g, cs: seq<Component>, dish: TypicalDish, nameScore: real)
    requires 0.0 <= nameScore <= 1.0
    ensures var s := SimilarityOf(user, cs, dish, nameScore);
      && 0.0 <= s.nutritionScore <= 1.0 && 0.0 <= s.componentScore <= 1.0
      && 0.0 <= s.totalScore <= 1.0
  {
    NutritionScoreRange(user, dish.per100g);
    ComponentScoreRange(cs, dish.tags);
  }

  /** `user_analysis.get('dish_name', '').lower()`. */
  function DishNameOf(a: Analysis): string
  {
    Lower(GetOr(a.dishName, ""))
  }

  /** The comparisons that pass the 0.2 threshold, in the order of the dishes. */
  function Kept(user: Per100g, a: Analysis, dishes: seq<TypicalDish>, ratio: (string, string) -> real): seq<Match>
  {
    if |dishes| == 0 then []
    else
      var d := dishes[|dishes| - 1];
      var s := SimilarityOf(user, GetOr(a.components, []), d, ratio(DishNameOf(a), Lower(d.dishName)));
      Kept(user, a, dishes[..|dishes| - 1], ratio) + (if s.totalScore > 0.2 then [Match(d, s)] else [])
  }

  /** `find_similar_dishes`: the kept comparisons, best first, at most `limit` of them. */
  function SimilarDishes(a: Analysis, dishes: seq<TypicalDish>, ratio: (string, string) -> real, limit: int): Option<seq<Match>>
  {
    if |dishes| == 0 then Some([])
    else match UserPer100g(a)
      case None => None
      case Some(user) => Some(Sorting.Take(Sorting.SortDescending(Kept(user, a, dishes, ratio), TotalOf), limit))
  }

  /** `find_similar_dishes`: scores each dish in turn, keeps those above 0.2, sorts and cuts. */
  method FindSimilarDishes(a: Analysis, dishes: seq<TypicalDish>, ratio: (string, string) -> real, limit: int)
    returns (r: Option<seq<Match>>)
    ensures r == SimilarDishes(a, dishes, ratio, limit)
  {
    if |dishes| == 0 {
      return Some([]);
    }
    var name := DishNameOf(a);
    var cs := GetOr(a.components, []);
    var u := UserPer100g(a);
    if u.None? {
      return None;
    }
    var user := u.value;
    var similarities: seq<Match> := [];
    for i := 0 to |dishes|
      invariant similarities == Kept(user, a, dishes[..i], ratio)
    {
      var d := dishes[i];
      var component := ComponentSimilarity(cs, d.tags);
      var nameScore := ratio(name, Lower(d.dishName));
      var nutrition := NutritionScore(user, d.per100g);
      var s := Similarity(nameScore, nutrition, component, WeightedTotal(nameScore, nutrition, component));
      if s.totalScore > 0.2 {
        similarities := similarities + [Match(d, s)];
      }
      assert dishes[..i + 1][..i] == dishes[..i];
    }
    assert dishes[..|dishes|] == dishes;
    similarities := Sorting.SortDescending(similarities, TotalOf);
    r := Some(Sorting.Take(similarities, limit));
  }

  /** Every kept comparison is above the threshold and is the comparison of one of the dishes. */
  lemma {:induction false} KeptAboveThreshold(user: Per100g, a: Analysis, dishes: seq<TypicalDish>,
                                               ratio: (string, string) -> real, m: Match)
    requires m in Kept(user, a, dishes, ratio)
    ensures TotalOf(m) > 0.2 && m.dish in dishes
    ensures m.similarity == SimilarityOf(user, GetOr(a.components, []), m.dish, ratio(DishNameOf(a), Lower(m.dish.dishName)))
  {
    var n := |dishes| - 1;
    if m in Kept(user, a, dishes[..n], ratio) {
      KeptAboveThreshold(user, a, dishes[..n], ratio, m);
      assert dishes[..n] <= dishes;
    }
  }

  /** The comparison of one dish, as the loop of `find_similar_dishes` computes it. */
  function ComparisonOf(user: Per100g, a: Analysis, d: TypicalDish, ratio: (string, string) -> real): Similarity
  {
    SimilarityOf(user, GetOr(a.components, []), d, ratio(DishNameOf(a), Lower(d.dishName)))
  }

  /** At most one comparison is kept per dish. */
  lemma {:induction false} KeptLength(user: Per100g, a: Analysis, dishes: seq<TypicalDish>, ratio: (string, string) -> real)
    ensures |Kept(user, a, dishes, ratio)| <= |dishes|
  {
    if |dishes| > 0 {
      KeptLength(user, a, dishes[..|dishes| - 1], ratio);
    }
  }

  /** Every dish whose comparison scores above 0.2 is kept, with that comparison. */
  lemma {:induction false} KeptComplete(user: Per100g, a: Analysis, dishes: seq<TypicalDish>,
                                        ratio: (string, string) -> real, i: nat)
    requires i < |dishes| && ComparisonOf(user, a, dishes[i], ratio).totalScore > 0.2
    ensures Match(dishes[i], ComparisonOf(user, a, dishes[i], ratio)) in Kept(user, a, dishes, ratio)
  {
    var n := |dishes| - 1;
    if i < n {
      assert dishes[..n][i] == dishes[i];
      KeptComplete(user, a, dishes[..n], ratio, i);
    }
  }

  /**
   * The similar dishes are above 0.2, best first, no more than `limit`
   * (when it is non-negative), each with its own comparison, and none left
   * out scores higher than one returned; the search fails only for a zero
   * weight with dishes to compare.
   */
  lemma SimilarDishesProperties(a: Analysis, dishes: seq<TypicalDish>, ratio: (string, string) -> real, limit: int)
    ensures SimilarDishes(a, dishes, ratio, limit).None? <==> |dishes| > 0 && GetOr(a.weightGrams, 100.0) == 0.0
    ensures SimilarDishes(a, dishes, ratio, limit).Some? ==>
      var r := SimilarDishes(a, dishes, ratio, limit).value;
      && Sorting.Descending(r, TotalOf)
      && (limit >= 0 ==> |r| <= limit)
      && (forall m :: m in r ==> TotalOf(m) > 0.2 && m.dish in dishes)
  {
    if |dishes| > 0 && UserPer100g(a).Some? {
      var user := UserPer100g(a).value;
      var kept := Kept(user, a, dishes, ratio);
      var sorted := Sorting.SortDescending(kept, TotalOf);
      var r := Sorting.Take(sorted, limit);
      assert r <= sorted;
      assert Sorting.Descending(r, TotalOf);
      forall m | m in r
        ensures TotalOf(m) > 0.2 && m.dish in dishes
      {
        assert m in multiset(sorted);
        KeptAboveThreshold(user, a, dishes, ratio, m);
      }
    }
  }

  /**
   * The search returns `min(limit, |kept|)` comparisons; with a limit that
   * cuts nothing, it returns every kept comparison, so every dish scoring
   * above 0.2 is among the similar dishes.
   */
  lemma SimilarDishesComplete(a: Analysis, dishes: seq<TypicalDish>, ratio: (string, string) -> real, limit: int,
                              user: Per100g)
    requires |dishes| > 0 && UserPer100g(a) == Some(user)
    ensures var kept := Kept(user, a, dishes, ratio);
      var r := SimilarDishes(a, dishes, ratio, limit).value;
      && (limit >= 0 ==> |r| == if limit < |kept| then limit else |kept|)
      && (limit >= |dishes| ==> multiset(r) == multiset(kept))
      && (limit >= |dishes| ==> forall i :: 0 <= i < |dishes| && ComparisonOf(user, a, dishes[i], ratio).totalScore > 0.2 ==>
            Match(dishes[i], ComparisonOf(user, a, dishes[i], ratio)) in r)
  {
    var kept := Kept(user, a, dishes, ratio);
    var sorted := Sorting.SortDescending(kept, TotalOf);
    var r := Sorting.Take(sorted, limit);
    assert SimilarDishes(a, dishes, ratio, limit).value == r;
    if limit >= |dishes| {
      KeptLength(user, a, dishes, ratio);
      assert r == sorted;
      forall i | 0 <= i < |dishes| && ComparisonOf(user, a, dishes[i], ratio).totalScore > 0.2
        ensures Match(dishes[i], ComparisonOf(user, a, dishes[i], ratio)) in r
      {
        KeptComplete(user, a, dishes, ratio, i);
        assert Match(dishes[i], ComparisonOf(user, a, dishes[i], ratio)) in multiset(kept);
      }
    }
  }

  /** Among the kept comparisons, any returned one scores at least as high as any left out by the limit. */
  lemma SimilarDishesBest(a: Analysis, dishes: seq<TypicalDish>, ratio: (string, string) -> real, limit: nat,
                          user: Per100g, x: Match, y: Match)
    requires UserPer100g(a) == Some(user) && |dishes| > 0
    requires x in SimilarDishes(a, dishes, ratio, limit).value
    requires y in Kept(user, a, dishes, ratio) && y !in SimilarDishes(a, dishes, ratio, limit).value
    ensures TotalOf(x) >= TotalOf(y)
  {
    var sorted := Sorting.SortDescending(Kept(user, a, dishes, ratio), TotalOf);
    var n := if limit < |sorted| then limit else |sorted|;
    assert Sorting.Take(sorted, limit) == sorted[..n];
    assert y in multiset(sorted);
    Sorting.PrefixBeatsRest(sorted, TotalOf, n, x, y);
  }

  // ---------------------------------------------------------------------
  // Deviations, realism and warnings
  // ---------------------------------------------------------------------

  /** One entry of `_calculate_deviations`. */
  datatype Deviation = Deviation(metric: string, user: real, typical: real, diffPercent: real)

  /** `(user - typical) / typical * 100` for a positive typical value, else 0. */
  function DiffPercent(user: real, typical: real): real
  {
    if typical > 0.0 then (user - typical) / typical * 100.0 else 0.0
  }

  function DeviationOf(metric: string, user: real, typical: real): Deviation
  {
    Deviation(metric, Round1(user), typical, Round1(DiffPercent(user, typical)))
  }

  /** The four deviations, in the source's order. */
  function DeviationsOf(user: Per100g, typical: Per100g): seq<Deviation>
  {
    [DeviationOf("calories", user.calories, typical.calories), DeviationOf("protein", user.protein, typical.protein),
     DeviationOf("fat", user.fat, typical.fat), DeviationOf("carbs", user.carbs, typical.carbs)]
  }

  /** `_calculate_deviations`: one entry appended per metric. */
  method CalculateDeviations(a: Analysis, dish: TypicalDish) returns (r: Option<seq<Deviation>>)
    ensures r.None? <==> UserPer100g(a).None?
    ensures r.Some? ==> r.value == DeviationsOf(UserPer100g(a).value, dish.per100g)
  {
    var u := UserPer100g(a);
    if u.None? {
      return None;
    }
    var user, typical := u.value, dish.per100g;
    var deviations: seq<Deviation> := [];
    deviations := deviations + [DeviationOf("calories", user.calories, typical.calories)];
    deviations := deviations + [DeviationOf("protein", user.protein, typical.protein)];
    deviations := deviations + [DeviationOf("fat", user.fat, typical.fat)];
    deviations := deviations + [DeviationOf("carbs", user.carbs, typical.carbs)];
    r := Some(deviations);
  }

  /** A deviation's percentage is 0 where the typical value is not positive, and rounds the relative change otherwise. */
  lemma DeviationsShape(user: Per100g, typical: Per100g)
    ensures var ds := DeviationsOf(user, typical);
      && |ds| == 4
      && ds[0].metric == "calories" && ds[1].metric == "protein" && ds[2].metric == "fat" && ds[3].metric == "carbs"
      && (forall i :: 0 <= i < 4 ==> Abs(ds[i].user - [user.calories, user.protein, user.fat, user.carbs][i]) <= 0.05)
      && (forall i :: 0 <= i < 4 && ds[i].typical <= 0.0 ==> ds[i].diffPercent == 0.0)
      && (forall i :: 0 <= i < 4 && ds[i].typical > 0.0 ==>
            Abs(ds[i].diffPercent - ([user.calories, user.protein, user.fat, user.carbs][i] - ds[i].typical) / ds[i].typical * 100.0) <= 0.05)
  {
    var us := [user.calories, user.protein, user.fat, user.carbs];
    var ds := DeviationsOf(user, typical);
    DeviationOfShape("calories", user.calories, typical.calories);
    DeviationOfShape("protein", user.protein, typical.protein);
    DeviationOfShape("fat", user.fat, typical.fat);
    DeviationOfShape("carbs", user.carbs, typical.carbs);
    forall i | 0 <= i < 4
      ensures ds[i] == DeviationOf(ds[i].metric, us[i], ds[i].typical)
    {
    }
  }

  /** One deviation: the rounded value, and a percentage that is 0 or the rounded relative change. */
  lemma DeviationOfShape(metric: string, user: real, typical: real)
    ensures var d := DeviationOf(metric, user, typical);
      && d.metric == metric && d.typical == typical && Abs(d.user - user) <= 0.05
      && (typical <= 0.0 ==> d.diffPercent == 0.0)
      && (typical > 0.0 ==> Abs(d.diffPercent - (user - typical) / typical * 100.0) <= 0.05)
  {
    assert RoundHalfEven(0.0) == 0;
  }

  /** The number of deviations within ±20%. */
  function WithinRange(ds: seq<Deviation>): (n: nat)
    ensures n <= |ds|
  {
    if |ds| == 0 then 0
    else WithinRange(ds[..|ds| - 1]) + (if Abs(ds[|ds| - 1].diffPercent) <= 20.0 then 1 else 0)
  }

  /** `_calculate_realism`: `round(0.6 * share within range + 0.4 * total score, 2)`. */
  function Realism(ds: seq<Deviation>, totalScore: real): real
    requires |ds| > 0
  {
    Round2(WithinRange(ds) as real / |ds| as real * 0.6 + totalScore * 0.4)
  }

  /** With a total score in [0, 1], the realism lies in [0, 1]. */
  lemma RealismRange(ds: seq<Deviation>, totalScore: real)
    requires |ds| > 0 && 0.0 <= totalScore <= 1.0
    ensures 0.0 <= Realism(ds, totalScore) <= 1.0
  {
    var share := WithinRange(ds) as real / |ds| as real;
    assert 0.0 <= share <= 1.0;
    Round2Unit(share * 0.6 + totalScore * 0.4);
  }

  /** `f"{metric.capitalize()} выше/ниже типичного на {abs(diff):.0f}%"`. */
  function WarningText(d: Deviation): string
  {
    Capitalize(d.metric) + (if d.diffPercent > 0.0 then " выше типичного на " else " ниже типичного на ")
    + IntToString(RoundHalfEven(Abs(d.diffPercent))) + "%"
  }

  /** The deviations beyond ±30%. */
  function Large(ds: seq<Deviation>): seq<Deviation>
  {
    if |ds| == 0 then []
    else Large(ds[..|ds| - 1]) + (if Abs(ds[|ds| - 1].diffPercent) > 30.0 then [ds[|ds| - 1]] else [])
  }

  /** The warnings for a list of deviations. */
  function WarningsOf(ds: seq<Deviation>): seq<string>
  {
    if |ds| == 0 then []
    else WarningsOf(ds[..|ds| - 1]) + (if Abs(ds[|ds| - 1].diffPercent) > 30.0 then [WarningText(ds[|ds| - 1])] else [])
  }

  /** `_generate_warnings`: a warning appended for each large deviation. */
  method GenerateWarnings(ds: seq<Deviation>) returns (warnings: seq<string>)
    ensures warnings == WarningsOf(ds)
  {
    warnings := [];
    for i := 0 to |ds|
      invariant warnings == WarningsOf(ds[..i])
    {
      if Abs(ds[i].diffPercent) > 30.0 {
        warnings := warnings + [WarningText(ds[i])];
      }
      assert ds[..i + 1][..i] == ds[..i];
    }
    assert ds[..|ds|] == ds;
  }

  /** There is one warning per deviation beyond ±30%, in order, and each says which way it deviates. */
  lemma {:induction false} WarningsPerLargeDeviation(ds: seq<Deviation>)
    ensures |WarningsOf(ds)| == |Large(ds)|
    ensures forall i :: 0 <= i < |Large(ds)| ==> WarningsOf(ds)[i] == WarningText(Large(ds)[i])
    ensures forall i :: 0 <= i < |Large(ds)| ==> Abs(Large(ds)[i].diffPercent) > 30.0 && Large(ds)[i] in ds
  {
    if |ds| > 0 {
      var n := |ds| - 1;
      WarningsPerLargeDeviation(ds[..n]);
      assert forall d :: d in ds[..n] ==> d in ds;
    }
  }

  const NoSimilarDishes := "Не найдено похожих блюд для сравнения"

  /** The result of `calculate_realism_score`. */
  datatype RealismReport = RealismReport(realismScore: real, closest: Option<Match>, deviations: seq<Deviation>,
                                         warnings: seq<string>)

  /** `calculate_realism_score`: 0.5 and a fixed warning without dishes, else the comparison with the closest. */
  function RealismReportOf(a: Analysis, similar: seq<Match>): (r: Option<RealismReport>)
    ensures |similar| == 0 ==> r == Some(RealismReport(0.5, None, [], [NoSimilarDishes]))
    ensures |similar| > 0 ==> (r.None? <==> UserPer100g(a).None?)
    ensures |similar| > 0 && r.Some? ==>
      && r.value.closest == Some(similar[0]) && |r.value.deviations| == 4
      && r.value.warnings == WarningsOf(r.value.deviations)
  {
    if |similar| == 0 then Some(RealismReport(0.5, None, [], [NoSimilarDishes]))
    else match UserPer100g(a)
      case None => None
      case Some(user) =>
        var closest := similar[0];
        var ds := DeviationsOf(user, closest.dish.per100g);
        Some(RealismReport(Realism(ds, closest.similarity.totalScore), Some(closest), ds, WarningsOf(ds)))
  }

  // ---------------------------------------------------------------------
  // Health score adjustment
  // ---------------------------------------------------------------------

  /** The score and explanation `adjust_health_score` returns. */
  datatype Adjustment = Adjustment(score: real, explanation: string)

  function Clamp10(x: real): real
  {
    Max(1.0, Min(10.0, x))
  }

  /** `adjust_health_score`. */
  function AdjustHealthScore(a: Analysis, similar: seq<Match>): Adjustment
  {
    var original := GetOr(a.healthScore, 5.0);
    if |similar| == 0 then Adjustment(original, "Нет данных для сравнения")
    else
      var closest := similar[0];
      var typical := closest.dish.healthScore as real;
      var name := closest.dish.dishName;
      if closest.similarity.totalScore > 0.7 then
        Adjustment(Clamp10(Trunc(original * 0.3 + typical * 0.7) as real),
                   "Скорректировано на основе сходства с '" + name + "' (типичная оценка: "
                   + IntToString(closest.dish.healthScore) + "/10)")
      else if closest.similarity.totalScore > 0.5 then
        Adjustment(Clamp10(Trunc(original * 0.6 + typical * 0.4) as real),
                   "Частично скорректировано на основе '" + name + "'")
      else
        Adjustment(Clamp10(original), "Оценка сохранена (похоже на '" + name + "', но есть отличия)")
  }

  /**
   * Without similar dishes the original score comes back unclamped;
   * otherwise the score lies in [1, 10], and for a close match with both
   * scores already in [1, 10] it lies between them, up to the truncation.
   */
  lemma AdjustHealthScoreRange(a: Analysis, similar: seq<Match>)
    ensures |similar| == 0 ==> AdjustHealthScore(a, similar).score == GetOr(a.healthScore, 5.0)
    ensures |similar| > 0 ==> 1.0 <= AdjustHealthScore(a, similar).score <= 10.0
    ensures |similar| > 0 && similar[0].similarity.totalScore <= 0.5 && 1.0 <= GetOr(a.healthScore, 5.0) <= 10.0
      ==> AdjustHealthScore(a, similar).score == GetOr(a.healthScore, 5.0)
    ensures (|similar| > 0 && similar[0].similarity.totalScore > 0.5 && 1.0 <= GetOr(a.healthScore, 5.0) <= 10.0
             && 1 <= similar[0].dish.healthScore <= 10) ==>
      var lo := Min(GetOr(a.healthScore, 5.0), similar[0].dish.healthScore as real);
      var hi := Max(GetOr(a.healthScore, 5.0), similar[0].dish.healthScore as real);
      lo - 1.0 < AdjustHealthScore(a, similar).score <= hi
  {
  }

  // ---------------------------------------------------------------------
  // Category and context
  // ---------------------------------------------------------------------

  /** `category_keywords`, in the dict's order. */
  const Categories: seq<(string, seq<string>)> := [
    ("fast_food", ["бургер", "гамбургер", "чизбургер", "картофель фри", "фри", "пицца", "хот-дог", "наггетсы",
                   "крылышки", "кфс", "макдональдс", "жареная котлета", "белая булочка", "майонез", "кетчуп"]),
    ("healthy", ["салат", "овощи", "гриль", "на пару", "отварной", "отварная", "цельнозерновой", "цельнозерновая",
                 "фрукты", "ягоды", "орехи", "авокадо", "киноа", "брокколи", "шпинат"]),
    ("dessert", ["торт", "пирожное", "мороженое", "шоколад", "конфеты", "печенье", "вафли", "пончик", "круассан",
                 "сладкое"]),
    ("home_cooking", ["пельмени", "вареники", "борщ", "суп", "каша", "гречка", "рис", "макароны", "котлета",
                      "тефтели", "рагу", "плов"]),
    ("breakfast", ["яичница", "омлет", "блины", "оладьи", "сырники", "каша", "мюсли", "хлопья", "тост",
                   "бутерброд"]),
    ("snacks", ["чипсы", "сухарики", "орехи", "семечки", "попкорн", "батончик", "крекер"]),
    ("drinks", ["сок", "кола", "пепси", "лимонад", "напиток", "смузи", "коктейль", "чай", "кофе"])]

  /** `unhealthy_markers`: seven groups of words. */
  const Markers: seq<seq<string>> := [
    ["жареный", "жареная", "жареное", "фри", "во фритюре"],
    ["белая булочка", "белый хлеб", "батон"],
    ["колбаса", "сосиски", "бекон", "ветчина"],
    ["сыр плавленый", "сыр чеддер"],
    ["майонез", "кетчуп", "соус"],
    ["соленый", "соленая", "маринованный"],
    ["сахар", "сладкий", "сладкая", "глазурь"]]

  /** `sum(1 for keyword in keywords if keyword in text)`. */
  function Hits(text: string, keywords: seq<string>): (n: nat)
    ensures n <= |keywords|
  {
    if |keywords| == 0 then 0
    else Hits(text, keywords[..|keywords| - 1]) + (if Contains(text, keywords[|keywords| - 1]) then 1 else 0)
  }

  /**
   * The category with the most hits and its count: the first such category
   * in table order, since `max` keeps the first of equal scores; the default
   * with 0 when nothing hits.
   */
  function Best(text: string, cats: seq<(string, seq<string>)>): (string, nat)
  {
    if |cats| == 0 then ("home_cooking", 0)
    else
      var prev := Best(text, cats[..|cats| - 1]);
      var h := Hits(text, cats[|cats| - 1].1);
      if h > prev.1 then (cats[|cats| - 1].0, h) else prev
  }

  /** The best category scores at least as much as every category. */
  lemma {:induction false} BestBounds(text: string, cats: seq<(string, seq<string>)>)
    ensures forall j :: 0 <= j < |cats| ==> Hits(text, cats[j].1) <= Best(text, cats).1
  {
    if |cats| > 0 {
      var n := |cats| - 1;
      BestBounds(text, cats[..n]);
      assert forall j :: 0 <= j < n ==> cats[..n][j] == cats[j];
    }
  }

  /**
   * With no hits the best category is the default; otherwise it is the
   * first category in order to reach the highest count.
   */
  lemma {:induction false} BestIsFirstMaximum(text: string, cats: seq<(string, seq<string>)>)
    ensures Best(text, cats).1 == 0 ==> Best(text, cats).0 == "home_cooking"
    ensures Best(text, cats).1 > 0 ==>
      exists i :: 0 <= i < |cats| && Best(text, cats) == (cats[i].0, Hits(text, cats[i].1))
                  && forall j :: 0 <= j < i ==> Hits(text, cats[j].1) < Best(text, cats).1
  {
    if |cats| > 0 {
      var n := |cats| - 1;
      BestIsFirstMaximum(text, cats[..n]);
      var prev := Best(text, cats[..n]);
      if Hits(text, cats[n].1) > prev.1 {
        BestBounds(text, cats[..n]);
        assert forall j :: 0 <= j < n ==> cats[..n][j] == cats[j];
        assert Best(text, cats) == (cats[n].0, Hits(text, cats[n].1));
      } else if prev.1 > 0 {
        var i :| 0 <= i < n && prev == (cats[..n][i].0, Hits(text, cats[..n][i].1))
          && forall j :: 0 <= j < i ==> Hits(text, cats[..n][j].1) < prev.1;
        assert forall j :: 0 <= j < i ==> cats[..n][j] == cats[j];
        assert Best(text, cats) == (cats[i].0, Hits(text, cats[i].1));
      }
    }
  }

  /** The component names, lowered. */
  function Names(cs: seq<Component>): (r: seq<string>)
    ensures |r| == |cs|
  {
    if |cs| == 0 then [] else Names(cs[..|cs| - 1]) + [ComponentName(cs[|cs| - 1])]
  }

  /** The dish name and the component names, joined by spaces. */
  function CategoryText(a: Analysis): string
  {
    DishNameOf(a) + " " + Join(Names(GetOr(a.components, [])), " ")
  }

  /** `detect_dish_category`. */
  function DetectDishCategory(a: Analysis): string
  {
    Best(CategoryText(a), Categories).0
  }

  /** The category is "home_cooking" when no keyword hits, and otherwise a category with the most hits. */
  lemma DetectDishCategoryChoice(a: Analysis)
    ensures var text := CategoryText(a);
      && ((forall j :: 0 <= j < |Categories| ==> Hits(text, Categories[j].1) == 0) ==> DetectDishCategory(a) == "home_cooking")
      && ((exists j :: 0 <= j < |Categories| && Hits(text, Categories[j].1) > 0) ==>
            exists i :: 0 <= i < |Categories| && DetectDishCategory(a) == Categories[i].0
              && forall j :: 0 <= j < |Categories| ==> Hits(text, Categories[j].1) <= Hits(text, Categories[i].1))
  {
    var text := CategoryText(a);
    BestBounds(text, Categories);
    BestIsFirstMaximum(text, Categories);
  }

  /** The number of marker groups with a word in the text. */
  function Flagged(text: string, groups: seq<seq<string>>): (n: nat)
    ensures n <= |groups|
  {
    if |groups| == 0 then 0
    else Flagged(text, groups[..|groups| - 1]) + (if AnyIn(text, groups[|groups| - 1]) then 1 else 0)
  }

  /** `calculate_dish_context_score`: 0.5 without components, else one minus the share of marker groups found. */
  function ContextScore(cs: seq<Component>): real
  {
    if |cs| == 0 then 0.5
    else Round2(1.0 - Fraction(Flagged(Join(Names(cs), " "), Markers), |Markers|))
  }

  /** The context score lies in [0, 1], and is 1 when no marker group is found. */
  lemma ContextScoreRange(cs: seq<Component>)
    ensures 0.0 <= ContextScore(cs) <= 1.0
    ensures |cs| > 0 && Flagged(Join(Names(cs), " "), Markers) == 0 ==> ContextScore(cs) == 1.0
  {
    if |cs| > 0 {
      var k := Flagged(Join(Names(cs), " "), Markers);
      Round2Unit(1.0 - Fraction(k, |Markers|));
      if k == 0 {
        assert Fraction(k, |Markers|) == 0.0;
        assert RoundHalfEven(1.0 * 100.0) == 100;
        assert Round2(1.0) == 1.0;
      }
    }
  }
}
