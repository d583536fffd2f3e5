/**
 * `UserManager` (core/user_manager.py): user profiles, the daily energy
 * target from the Mifflin-St Jeor equation, the macro goals derived from
 * it, and the daily progress report. The users table is the map `users`;
 * today's energy total and today's meals, which the progress report reads
 * from the meals table, arrive as parameters.
 */
module UserManager {
  import opened Common

  /** A row of the users table: the columns this class reads or writes. */
  datatype User = User(
    username: Option<string>, firstName: Option<string>, lastName: Option<string>,
    goal: Option<string>, targetWeight: Option<real>, startWeight: Option<real>, currentWeight: Option<real>,
    height: Option<int>, age: Option<int>, gender: Option<string>,
    dailyCalories: Option<int>, proteinGoal: Option<int>, fatGoal: Option<int>, carbsGoal: Option<int>)

  /** A new row: the goal column defaults to 'weight_loss', the other goal columns are NULL. */
  function NewUser(username: Option<string>, firstName: Option<string>, lastName: Option<string>): User
  {
    User(username, firstName, lastName, Some("weight_loss"), None, None, None, None, None, None, None, None, None, None)
  }

  // ---------------------------------------------------------------------
  // Energy target
  // ---------------------------------------------------------------------

  /** The gender strings read as male, after lower-casing. */
  const MaleNames: seq<string> := ["male", "m", "мужской", "м"]

  predicate IsMale(gender: string)
  {
    Lower(gender) in MaleNames
  }

  /** Basal metabolic rate (Mifflin-St Jeor). */
  function Bmr(weight: real, height: int, age: int, gender: string): real
  {
    if IsMale(gender) then 10.0 * weight + 6.25 * height as real - 5.0 * age as real + 5.0
    else 10.0 * weight + 6.25 * height as real - 5.0 * age as real - 161.0
  }

  /** Energy at moderate activity. */
  function Tdee(weight: real, height: int, age: int, gender: string): real
  {
    Bmr(weight, height, age, gender) * 1.55
  }

  /** `_calculate_daily_calories`: 500 kcal less to lose weight, 300 more to gain muscle. */
  function DailyCalories(weight: real, height: int, age: int, gender: string, goal: string): int
  {
    var tdee := Tdee(weight, height, age, gender);
    if goal == "weight_loss" then Trunc(tdee - 500.0)
    else if goal == "muscle_gain" then Trunc(tdee + 300.0)
    else Trunc(tdee)
  }

  /** The male formula is 166 kcal above the female one for the same body, whatever the case of the gender string. */
  lemma BmrByGender(weight: real, height: int, age: int, gender: string)
    ensures IsMale(gender) ==> Bmr(weight, height, age, gender) == Bmr(weight, height, age, "female") + 166.0
    ensures !IsMale(gender) ==> Bmr(weight, height, age, gender) == Bmr(weight, height, age, "female")
    ensures Bmr(weight, height, age, gender) == Bmr(weight, height, age, Lower(gender))
  {
    assert Lower("female") == "female";
    assert !IsMale("female");
    LowerIdempotent(gender);
  }

  lemma {:induction false} LowerIdempotent(s: string)
    ensures Lower(Lower(s)) == Lower(s)
  {
    if s != [] {
      LowerIdempotent(s[1..]);
      assert Lower(s)[1..] == Lower(s[1..]);
    }
  }

  /** Upper-case and Cyrillic spellings count as male. */
  lemma MaleExamples()
    ensures IsMale("Male") && IsMale("МУЖСКОЙ") && IsMale("М")
  {
    assert Lower("Male") == MaleNames[0];
    assert Lower("МУЖСКОЙ") == MaleNames[2];
    assert Lower("М") == MaleNames[3];
  }

  /** Other words, in either alphabet, take the female formula. */
  lemma FemaleExamples()
    ensures !IsMale("female") && !IsMale("ж")
  {
    assert Lower("female") == "female";
    assert Lower("ж") == "ж";
  }

  lemma TruncMonotone(x: real, y: real)
    requires x <= y
    ensures Trunc(x) <= Trunc(y)
  {
  }

  /** Truncation commutes with whole shifts while the value stays non-negative. */
  lemma TruncShift(x: real, k: int)
    requires x >= 0.0 && x + k as real >= 0.0
    ensures Trunc(x + k as real) == Trunc(x) + k
  {
  }

  /**
   * For the same body, losing weight aims no higher than maintenance, which
   * aims no higher than gaining muscle; once the maintenance energy is at
   * least 500 kcal the targets are exactly 500 below and 300 above it.
   */
  lemma GoalOrdering(weight: real, height: int, age: int, gender: string, goal: string)
    requires goal != "weight_loss" && goal != "muscle_gain"
    ensures DailyCalories(weight, height, age, gender, "weight_loss") <= DailyCalories(weight, height, age, gender, goal)
    ensures DailyCalories(weight, height, age, gender, goal) <= DailyCalories(weight, height, age, gender, "muscle_gain")
    ensures Tdee(weight, height, age, gender) >= 500.0 ==>
      && DailyCalories(weight, height, age, gender, "weight_loss") == DailyCalories(weight, height, age, gender, goal) - 500
      && DailyCalories(weight, height, age, gender, "muscle_gain") == DailyCalories(weight, height, age, gender, goal) + 300
  {
    var tdee := Tdee(weight, height, age, gender);
    TruncMonotone(tdee - 500.0, tdee);
    TruncMonotone(tdee, tdee + 300.0);
    if tdee >= 500.0 {
      TruncShift(tdee, -500);
      TruncShift(tdee, 300);
    }
  }

  /** A man of 80 kg, 180 cm and 30 years: 1780 kcal basal, 2759 to maintain, 2259 to lose weight. */
  lemma DailyCaloriesExample()
    ensures Bmr(80.0, 180, 30, "male") == 1780.0
    ensures DailyCalories(80.0, 180, 30, "male", "maintenance") == 2759
    ensures DailyCalories(80.0, 180, 30, "male", "weight_loss") == 2259
    ensures DailyCalories(80.0, 180, 30, "male", "muscle_gain") == 3059
  {
    assert Lower("male") == "male";
  }

  // ---------------------------------------------------------------------
  // Macro goals
  // ---------------------------------------------------------------------

  datatype MacroGoals = MacroGoals(protein: int, fat: int, carbs: int)

  /** The macro split of `set_goals`: 2 g of protein per kg, a quarter of the energy from fat, the rest carbohydrates. */
  function GoalMacros(weight: real, daily: int): MacroGoals
  {
    var protein := Trunc(weight * 2.0);
    var fat := Trunc(daily as real * 0.25 / 9.0);
    MacroGoals(protein, fat, Trunc((daily - protein * 4 - fat * 9) as real / 4.0))
  }

  /** The energy of the goals, at 4, 9 and 4 kcal per gram. */
  function GoalEnergy(g: MacroGoals): int
  {
    g.protein * 4 + g.fat * 9 + g.carbs * 4
  }

  /**
   * Fat takes at most a quarter of a non-negative target; when protein and
   * fat leave a non-negative remainder, carbohydrates fill it to within
   * 4 kcal without going over.
   */
  lemma GoalMacrosWithinTarget(weight: real, daily: int)
    ensures daily >= 0 ==> 0 <= GoalMacros(weight, daily).fat * 9 <= daily / 4 + 1
    ensures daily >= 0 ==> GoalMacros(weight, daily).fat as real * 9.0 <= daily as real * 0.25
    ensures var g := GoalMacros(weight, daily);
      daily - g.protein * 4 - g.fat * 9 >= 0 ==> daily - 4 < GoalEnergy(g) <= daily && g.carbs >= 0
  {
    var g := GoalMacros(weight, daily);
    var rem := daily - g.protein * 4 - g.fat * 9;
    if rem >= 0 {
      assert g.carbs as real <= rem as real / 4.0 < g.carbs as real + 1.0;
      assert g.carbs * 4 <= rem < g.carbs * 4 + 4;
    }
  }

  /** The 80 kg man aiming at 2259 kcal: 160 g protein, 62 g fat, 265 g carbohydrates. */
  lemma GoalMacrosExample()
    ensures GoalMacros(80.0, 2259) == MacroGoals(160, 62, 265)
  {
  }

  // ---------------------------------------------------------------------
  // Daily progress
  // ---------------------------------------------------------------------

  /** The macro columns of one of today's meals. */
  datatype Meal = Meal(proteinG: real, fatG: real, carbsG: real)

  datatype MacroProgress = MacroProgress(consumed: real, target: Option<int>)

  /** The dictionary `get_daily_progress` returns for a known user. */
  datatype Progress = Progress(consumedCalories: int, targetCalories: int, remainingCalories: int,
                               protein: MacroProgress, fat: MacroProgress, carbs: MacroProgress, mealsCount: nat)

  /** What `get_daily_progress` does as written: an empty report, a report, or a TypeError. */
  datatype ProgressOutcome = NoUser | Raises | Report(progress: Progress)

  function ProteinOf(m: Meal): real { m.proteinG }
  function FatOf(m: Meal): real { m.fatG }
  function CarbsOf(m: Meal): real { m.carbsG }

  /** `sum(m[key] for m in meals)`. */
  function SumBy(meals: seq<Meal>, key: Meal -> real): (r: real)
    ensures |meals| == 0 ==> r == 0.0
  {
    if |meals| == 0 then 0.0 else SumBy(meals[..|meals| - 1], key) + key(meals[|meals| - 1])
  }

  /** The report for a known user with energy target `target`. */
  function ReportFor(u: User, target: int, consumed: int, meals: seq<Meal>): Progress
  {
    Progress(consumed, target, target - consumed,
             MacroProgress(SumBy(meals, ProteinOf), u.proteinGoal),
             MacroProgress(SumBy(meals, FatOf), u.fatGoal),
             MacroProgress(SumBy(meals, CarbsOf), u.carbsGoal),
             |meals|)
  }

  class UserManager {
    var users: map<int, User>

    constructor (users: map<int, User>)
      ensures this.users == users
    {
      this.users := users;
    }

    /** `get_or_create_user`: the existing row, or a fresh one inserted first. */
    method GetOrCreateUser(id: int, username: Option<string>, firstName: Option<string>, lastName: Option<string>)
      returns (u: User)
      modifies this
      ensures id in users && u == users[id]
      ensures id in old(users) ==> users == old(users)
      ensures id !in old(users) ==> users == old(users)[id := NewUser(username, firstName, lastName)]
    {
      if id !in users {
        users := users[id := NewUser(username, firstName, lastName)];
      }
      u := users[id];
    }

    /** `is_registered`: the user exists and has a goal, a current weight and a target weight. */
    function IsRegistered(id: int): (b: bool)
      reads this
      ensures b <==> id in users && users[id].goal.Some? && users[id].currentWeight.Some? && users[id].targetWeight.Some?
    {
      if id !in users then false
      else
        var u := users[id];
        u.goal.Some? && u.currentWeight.Some? && u.targetWeight.Some?
    }

    /**
     * `set_goals`: stores the profile, the energy target and the macro
     * goals derived from it; a missing row makes the update a no-op that
     * still reports success. A user so updated counts as registered.
     */
    method SetGoals(id: int, goal: string, currentWeight: real, targetWeight: real, height: int, age: int,
                    gender: string) returns (ok: bool)
      modifies this
      ensures ok
      ensures id !in old(users) ==> users == old(users)
      ensures id in old(users) ==>
        var daily := DailyCalories(currentWeight, height, age, gender, goal);
        var g := GoalMacros(currentWeight, daily);
        users == old(users)[id := old(users)[id].(
          goal := Some(goal), currentWeight := Some(currentWeight), startWeight := Some(currentWeight),
          targetWeight := Some(targetWeight), height := Some(height), age := Some(age), gender := Some(gender),
          dailyCalories := Some(daily), proteinGoal := Some(g.protein), fatGoal := Some(g.fat),
          carbsGoal := Some(g.carbs))]
      ensures id in old(users) ==> IsRegistered(id)
    {
      var daily := DailyCalories(currentWeight, height, age, gender, goal);
      var g := GoalMacros(currentWeight, daily);
      if id in users {
        users := users[id := users[id].(
          goal := Some(goal), currentWeight := Some(currentWeight), startWeight := Some(currentWeight),
          targetWeight := Some(targetWeight), height := Some(height), age := Some(age), gender := Some(gender),
          dailyCalories := Some(daily), proteinGoal := Some(g.protein), fatGoal := Some(g.fat),
          carbsGoal := Some(g.carbs))];
      }
      return true;
    }

    /** `update_weight`. */
    method UpdateWeight(id: int, weight: real) returns (ok: bool)
      modifies this
      ensures ok
      ensures users == if id in old(users) then old(users)[id := old(users)[id].(currentWeight := Some(weight))]
                       else old(users)
    {
      if id in users {
        users := users[id := users[id].(currentWeight := Some(weight))];
      }
      return true;
    }

    /**
     * `get_daily_progress` as written: the energy target is the column's
     * value, so a user whose target is NULL (one who never set goals) makes
     * the subtraction raise instead of using the default 0.
     */
    function DailyProgressAsWritten(id: int, consumed: int, meals: seq<Meal>): (r: ProgressOutcome)
      reads this
      ensures r.NoUser? <==> id !in users
      ensures r.Raises? <==> id in users && users[id].dailyCalories.None?
    {
      if id !in users then NoUser
      else
        var u := users[id];
        match u.dailyCalories
        case None => Raises
        case Some(target) => Report(ReportFor(u, target, consumed, meals))
    }

    /** `get_daily_progress` with the default the code asks for: a missing target counts as 0. */
    function DailyProgress(id: int, consumed: int, meals: seq<Meal>): (r: Option<Progress>)
      reads this
      ensures r.None? <==> id !in users
    {
      if id !in users then None
      else Some(ReportFor(users[id], GetOr(users[id].dailyCalories, 0), consumed, meals))
    }

    /** A user created by `get_or_create_user` who never set goals has no energy target. */
    lemma ProgressWithoutGoalsRaises(id: int, consumed: int, meals: seq<Meal>)
      requires id in users && users[id] == NewUser(None, None, None)
      ensures DailyProgressAsWritten(id, consumed, meals) == Raises
      ensures DailyProgress(id, consumed, meals).Some?
      ensures DailyProgress(id, consumed, meals).value.remainingCalories == -consumed
    {
    }

    /**
     * The report of a known user: what remains is the target less what was
     * eaten, the meal count is the number of today's meals, and each macro
     * total grows by the meal's share when a meal is added; the corrected
     * report agrees with the written one whenever the latter does not raise.
     */
    lemma {:induction false} DailyProgressFacts(id: int, consumed: int, meals: seq<Meal>, extra: Meal)
      requires id in users
      ensures var p := DailyProgress(id, consumed, meals).value;
        && p.remainingCalories == p.targetCalories - p.consumedCalories
        && p.mealsCount == |meals|
        && p.targetCalories == GetOr(users[id].dailyCalories, 0)
      ensures var p := DailyProgress(id, consumed, meals).value;
        var q := DailyProgress(id, consumed, meals + [extra]).value;
        && q.protein.consumed == p.protein.consumed + extra.proteinG
        && q.fat.consumed == p.fat.consumed + extra.fatG
        && q.carbs.consumed == p.carbs.consumed + extra.carbsG
        && q.mealsCount == p.mealsCount + 1
      ensures DailyProgressAsWritten(id, consumed, meals).Report? ==>
                DailyProgress(id, consumed, meals) == Some(DailyProgressAsWritten(id, consumed, meals).progress)
    {
      assert (meals + [extra])[..|meals|] == meals;
    }
  }
}
