/**
 * `MealConfirmation` (handlers/meal_confirmation.py): the arithmetic behind
 * confirming a meal: the mean confidence of the analysis, the update of the
 * day's totals, and the choice of the message about the energy goal. The
 * daily stats table is the map `rows` from (user, day) to record.
 */
module MealConfirmation {
  import opened Common
  import opened Food

  // ---------------------------------------------------------------------
  // Mean confidence
  // ---------------------------------------------------------------------

  /** `[c.get('confidence', 0.5) for c in components]`. */
  function Confidences(cs: seq<Component>): (r: seq<real>)
    ensures |r| == |cs|
    ensures forall i :: 0 <= i < |cs| ==> r[i] == GetOr(cs[i].confidence, 0.5)
  {
    if |cs| == 0 then [] else Confidences(cs[..|cs| - 1]) + [GetOr(cs[|cs| - 1].confidence, 0.5)]
  }

  /** `_calculate_avg_confidence`: 0 without components, else the mean confidence (0.5 for a component without one). */
  function AvgConfidence(an: Analysis): real
  {
    var cs := GetOr(an.components, []);
    if |cs| == 0 then 0.0 else Sum(Confidences(cs)) / |cs| as real
  }

  lemma {:induction false} SumBetween(xs: seq<real>, lo: real, hi: real)
    requires forall i :: 0 <= i < |xs| ==> lo <= xs[i] <= hi
    ensures lo * |xs| as real <= Sum(xs) <= hi * |xs| as real
    decreases |xs|
  {
    if |xs| > 0 {
      SumBetween(xs[..|xs| - 1], lo, hi);
    }
  }

  /**
   * The mean lies between the smallest and the largest confidence; with no
   * components it is 0, and a component without a confidence counts as 0.5.
   */
  lemma AvgConfidenceBounds(an: Analysis, lo: real, hi: real)
    requires lo <= 0.5 <= hi
    requires an.components.Some? ==> forall c :: c in an.components.value && c.confidence.Some? ==> lo <= c.confidence.value <= hi
    ensures GetOr(an.components, []) == [] ==> AvgConfidence(an) == 0.0
    ensures GetOr(an.components, []) != [] ==> lo <= AvgConfidence(an) <= hi
  {
    var cs := GetOr(an.components, []);
    if |cs| > 0 {
      ConfidencesWithin(cs, lo, hi);
      var xs := Confidences(cs);
      assert AvgConfidence(an) == Sum(xs) / |xs| as real;
      MeanOfBetween(xs, lo, hi);
    }
  }

  /** The mean of values between two bounds lies between them. */
  lemma MeanOfBetween(xs: seq<real>, lo: real, hi: real)
    requires |xs| > 0
    requires forall i :: 0 <= i < |xs| ==> lo <= xs[i] <= hi
    ensures lo <= Sum(xs) / |xs| as real <= hi
  {
    SumBetween(xs, lo, hi);
    MeanBetween(Sum(xs), |xs| as real, lo, hi);
  }

  lemma ConfidencesWithin(cs: seq<Component>, lo: real, hi: real)
    requires lo <= 0.5 <= hi
    requires forall c :: c in cs && c.confidence.Some? ==> lo <= c.confidence.value <= hi
    ensures forall i :: 0 <= i < |cs| ==> lo <= Confidences(cs)[i] <= hi
  {
    forall i | 0 <= i < |cs|
      ensures lo <= Confidences(cs)[i] <= hi
    {
      assert cs[i] in cs;
    }
  }

  /** Two components, one at 0.9 and one without a confidence: the mean is 0.7. */
  lemma AvgConfidenceExample(a: Component, b: Component)
    requires a.confidence == Some(0.9) && b.confidence == None
    ensures AvgConfidence(NoKeys.(components := Some([a, b]))) == 0.7
  {
    assert [a, b][..1] == [a];
    assert Confidences([a, b]) == [0.9, 0.5];
    assert [0.9, 0.5][..1] == [0.9];
    assert [0.9][..0] == [];
    assert Sum([0.9, 0.5]) == 1.4;
  }

  // ---------------------------------------------------------------------
  // Daily statistics
  // ---------------------------------------------------------------------

  /** A row of the daily stats table. */
  datatype DailyStats = DailyStats(caloriesConsumed: real, proteinConsumed: real, fatConsumed: real,
                                   carbsConsumed: real, mealsCount: int)

  /** The values of a saved meal that count towards the day. */
  datatype MealData = MealData(totalCalories: real, proteinG: real, fatG: real, carbsG: real)

  /** The day's record after one more meal: the existing one increased, or a new one for a first meal. */
  function WithMeal(stats: Option<DailyStats>, meal: MealData): DailyStats
  {
    match stats
    case Some(s) => DailyStats(s.caloriesConsumed + meal.totalCalories, s.proteinConsumed + meal.proteinG,
                               s.fatConsumed + meal.fatG, s.carbsConsumed + meal.carbsG, s.mealsCount + 1)
    case None => DailyStats(meal.totalCalories, meal.proteinG, meal.fatG, meal.carbsG, 1)
  }

  function CaloriesOf(m: MealData): real { m.totalCalories }
  function ProteinOf(m: MealData): real { m.proteinG }

  /** `[key(m) for m in meals]`. */
  function Column(meals: seq<MealData>, key: MealData -> real): (r: seq<real>)
    ensures |r| == |meals|
  {
    if |meals| == 0 then [] else Column(meals[..|meals| - 1], key) + [key(meals[|meals| - 1])]
  }

  /** The day's record after the meals `meals`, starting from no record. */
  function AfterMeals(meals: seq<MealData>): Option<DailyStats>
  {
    if |meals| == 0 then None else Some(WithMeal(AfterMeals(meals[..|meals| - 1]), meals[|meals| - 1]))
  }

  /** After a day of meals, the record counts every meal and holds the sum of their energy and protein. */
  lemma {:induction false} AfterMealsTotals(meals: seq<MealData>)
    requires |meals| > 0
    ensures AfterMeals(meals).Some?
    ensures AfterMeals(meals).value.mealsCount == |meals|
    ensures AfterMeals(meals).value.caloriesConsumed == Sum(Column(meals, CaloriesOf))
    ensures AfterMeals(meals).value.proteinConsumed == Sum(Column(meals, ProteinOf))
    decreases |meals|
  {
    var n := |meals| - 1;
    if n == 0 {
      assert Column(meals, CaloriesOf) == [meals[0].totalCalories];
      assert Column(meals, ProteinOf) == [meals[0].proteinG];
    } else {
      AfterMealsTotals(meals[..n]);
    }
  }

  class DailyStatsTable {
    var rows: map<(int, int), DailyStats>

    constructor (rows: map<(int, int), DailyStats>)
      ensures this.rows == rows
    {
      this.rows := rows;
    }

    /** `get_daily_stats`. */
    function Get(user: int, day: int): (r: Option<DailyStats>)
      reads this
      ensures r.Some? <==> (user, day) in rows
    {
      if (user, day) in rows then Some(rows[(user, day)]) else None
    }

    /**
     * `_update_daily_stats`: the day's record grows by the meal and one more
     * meal is counted, or a record is created for the day's first meal;
     * every other day and user is left alone.
     */
    method UpdateDailyStats(user: int, today: int, meal: MealData)
      modifies this
      ensures rows == old(rows)[(user, today) := WithMeal(old(Get(user, today)), meal)]
      ensures old(Get(user, today)).Some? ==> Get(user, today).value.mealsCount == old(Get(user, today)).value.mealsCount + 1
      ensures old(Get(user, today)).None? ==> Get(user, today).value.mealsCount == 1
      ensures Get(user, today).value.caloriesConsumed == GetOr(old(Get(user, today)), DailyStats(0.0, 0.0, 0.0, 0.0, 0)).caloriesConsumed + meal.totalCalories
    {
      var stats := Get(user, today);
      if stats.Some? {
        var s := stats.value;
        rows := rows[(user, today) := DailyStats(s.caloriesConsumed + meal.totalCalories, s.proteinConsumed + meal.proteinG,
                                                 s.fatConsumed + meal.fatG, s.carbsConsumed + meal.carbsG,
                                                 s.mealsCount + 1)];
      } else {
        rows := rows[(user, today) := DailyStats(meal.totalCalories, meal.proteinG, meal.fatG, meal.carbsG, 1)];
      }
    }
  }

  // ---------------------------------------------------------------------
  // Goal message
  // ---------------------------------------------------------------------

  /** The message `_check_goals_and_get_message` chooses, with the numbers it shows. */
  datatype GoalMessage =
    | Achieved(consumed: real, target: int, percent: real)
    | Approaching(remaining: real, consumed: real, target: int, percent: real)
    | Over(excess: real, consumed: real, target: int, percent: real)

  /** The outcome: no message (the empty string), a message, or a TypeError from a NULL target. */
  datatype GoalCheck = Silent | Message(message: GoalMessage) | Raises

  /** The percentage of the target eaten, 0 for a non-positive target. */
  function CaloriesPercentage(consumed: real, target: int): real
  {
    if target > 0 then consumed / target as real * 100.0 else 0.0
  }

  /**
   * `_check_goals_and_get_message`. `user` is `None` for a missing user and
   * otherwise holds the `daily_calories` column, itself `None` when NULL;
   * `stats` is the day's record, if any.
   */
  function CheckGoals(user: Option<Option<int>>, stats: Option<DailyStats>): GoalCheck
  {
    if user.None? || stats.None? then Silent
    else match user.value
      case None => Raises
      case Some(target) =>
        var consumed := stats.value.caloriesConsumed;
        var p := CaloriesPercentage(consumed, target);
        if 90.0 <= p <= 110.0 then Message(Achieved(consumed, target, p))
        else if 80.0 <= p < 90.0 then Message(Approaching(target as real - consumed, consumed, target, p))
        else if p > 110.0 then Message(Over(consumed - target as real, consumed, target, p))
        else Silent
  }

  /** Scaling both sides of an inequality by the positive target. */
  lemma PercentBand(consumed: real, target: int, k: real)
    requires target > 0
    ensures CaloriesPercentage(consumed, target) >= k <==> consumed >= k / 100.0 * target as real
    ensures CaloriesPercentage(consumed, target) <= k <==> consumed <= k / 100.0 * target as real
  {
    var t := target as real;
    var p := consumed / t * 100.0;
    assert p * t == consumed * 100.0;
    if p >= k {
      assert p * t >= k * t;
    }
    if consumed >= k / 100.0 * t {
      assert p * t >= k * t;
    }
    if p <= k {
      assert p * t <= k * t;
    }
    if consumed <= k / 100.0 * t {
      assert p * t <= k * t;
    }
  }

  /**
   * The bands stated on the energy itself: achieved from 90% to 110% of the
   * target inclusive, approaching from 80% up to 90% with the remainder
   * shown, over above 110% with the excess shown, silent below 80% and for
   * a non-positive target.
   */
  lemma CheckGoalsBands(consumed: real, target: int, s: DailyStats)
    requires s.caloriesConsumed == consumed
    ensures var r := CheckGoals(Some(Some(target)), Some(s));
      && (target <= 0 ==> r == Silent)
      && (target > 0 ==>
            && (r.Message? && r.message.Achieved? <==> 0.9 * target as real <= consumed <= 1.1 * target as real)
            && (r.Message? && r.message.Approaching? <==> 0.8 * target as real <= consumed < 0.9 * target as real)
            && (r.Message? && r.message.Over? <==> consumed > 1.1 * target as real)
            && (r == Silent <==> consumed < 0.8 * target as real))
    ensures var r := CheckGoals(Some(Some(target)), Some(s));
      && (r.Message? && r.message.Approaching? ==> r.message.remaining == target as real - consumed > 0.0)
      && (r.Message? && r.message.Over? ==> r.message.excess == consumed - target as real > 0.0)
  {
    if target > 0 {
      PercentBand(consumed, target, 80.0);
      PercentBand(consumed, target, 90.0);
      PercentBand(consumed, target, 110.0);
    }
  }

  /** No message without a user or without the day's record; a NULL target raises. */
  lemma CheckGoalsMissing(target: Option<int>, s: DailyStats)
    ensures CheckGoals(None, Some(s)) == Silent
    ensures CheckGoals(Some(target), None) == Silent
    ensures CheckGoals(Some(None), Some(s)) == Raises
  {
  }
}
