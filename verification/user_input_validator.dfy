/**
 * The registration-input checks (`UserInputValidator` in utils/validators.py).
 *
 * Python's `int()` and `float()` are modelled for plain decimal text:
 * optional surrounding whitespace, an optional sign, ASCII digits and, for
 * `float()`, one decimal point.
 */
module UserInputValidator {
  import opened Common

  // ---------------------------------------------------------------------
  // Reading numbers
  // ---------------------------------------------------------------------

  predicate AllDigits(s: string)
  {
    forall k :: 0 <= k < |s| ==> IsDigit(s[k])
  }

  /** The text after an optional leading sign, and whether the sign was '-'. */
  function Unsigned(t: string): (string, bool)
  {
    if |t| > 0 && (t[0] == '+' || t[0] == '-') then (t[1..], t[0] == '-') else (t, false)
  }

  /** Python `int(s)` for decimal text; `None` where Python raises `ValueError`. */
  function ParseInt(s: string): Option<int>
  {
    var (digits, negative) := Unsigned(Strip(s));
    if digits != [] && AllDigits(digits) then
      Some(if negative then -(DigitsValue(digits) as int) else DigitsValue(digits) as int)
    else None
  }

  function Pow10(n: nat): (p: nat)
    ensures p >= 1
  {
    if n == 0 then 1 else 10 * Pow10(n - 1)
  }

  /** `whole.frac` as a number. */
  function DecimalValue(whole: string, frac: string): real
  {
    DigitsValue(whole) as real + DigitsValue(frac) as real / Pow10(|frac|) as real
  }

  /** Python `float(s)` for decimal text with at most one '.'; `None` where Python raises `ValueError`. */
  function ParseFloat(s: string): Option<real>
  {
    var (body, negative) := Unsigned(Strip(s));
    var dot := FindChar(body, '.', 0);
    var whole := if dot < 0 then body else body[..dot];
    var frac := if dot < 0 then "" else body[dot + 1..];
    if AllDigits(whole) && AllDigits(frac) && (whole != [] || frac != []) then
      Some(if negative then -DecimalValue(whole, frac) else DecimalValue(whole, frac))
    else None
  }

  /** `str(i)` reads back as `i`. */
  lemma ParseIntRoundTrip(i: int)
    ensures ParseInt(IntToString(i)) == Some(i)
  {
    var s := IntToString(i);
    var digits := NatToString(if i < 0 then -i else i);
    NatToStringRoundTrip(if i < 0 then -i else i);
    StripUnchanged(s);
    if i < 0 {
      assert s[1..] == digits;
    }
  }

  /** Text without a '.' reads the same through `float()` as through `int()`. */
  lemma ParseFloatOfInteger(s: string)
    requires forall k :: 0 <= k < |s| ==> s[k] != '.'
    ensures ParseInt(s).Some? ==> ParseFloat(s) == Some(ParseInt(s).value as real)
  {
    var (body, negative) := Unsigned(Strip(s));
    if ParseInt(s).Some? {
      assert forall k :: 0 <= k < |body| ==> body[k] != '.' by {
        StripIsSlice(s);
        assert '.' !in s;
      }
      assert FindChar(body, '.', 0) == -1;
    }
  }

  /** The stripped text is a slice of the original. */
  lemma StripIsSlice(s: string)
    ensures forall k :: 0 <= k < |Strip(s)| ==> Strip(s)[k] in s
  {
    var i := SkipSpaces(s, 0);
    var j := TrimEnd(s[i..], |s| - i);
    assert Strip(s) == s[i..][..j];
    forall k | 0 <= k < |Strip(s)|
      ensures Strip(s)[k] in s
    {
      assert Strip(s)[k] == s[i + k];
    }
  }

  /** `(is_valid, value, error_message)`. */
  datatype Checked<T> = Checked(isValid: bool, value: Option<T>, error: Option<string>)

  function Accept<T>(v: T): Checked<T>
  {
    Checked(true, Some(v), None)
  }

  function Refuse<T>(message: string): Checked<T>
  {
    Checked(false, None, Some(message))
  }

  const WeightTooSmall := "Вес слишком мал (минимум 30 кг)"
  const WeightTooBig := "Вес слишком велик (максимум 300 кг)"
  const WeightFormat := "Неверный формат. Введи число, например: 75"
  const HeightTooSmall := "Рост слишком мал (минимум 100 см)"
  const HeightTooBig := "Рост слишком велик (максимум 250 см)"
  const HeightFormat := "Неверный формат. Введи число, например: 175"
  const AgeTooSmall := "Возраст слишком мал (минимум 10 лет)"
  const AgeTooBig := "Возраст слишком велик (максимум 100 лет)"
  const AgeFormat := "Неверный формат. Введи число, например: 28"

  /** `text.replace(",", ".")`: every comma becomes a point. */
  function CommaToPoint(s: string): (r: string)
    ensures |r| == |s|
    ensures forall i :: 0 <= i < |s| ==> r[i] == if s[i] == ',' then '.' else s[i]
  {
    if s == [] then [] else [if s[0] == ',' then '.' else s[0]] + CommaToPoint(s[1..])
  }

  /** `validate_weight`: a decimal comma is read as a point; 30 to 300 kg. */
  function ValidateWeight(text: string): (r: Checked<real>)
    ensures r.isValid <==> r.value.Some?
  {
    match ParseFloat(CommaToPoint(text))
    case None => Refuse(WeightFormat)
    case Some(w) =>
      if w < 30.0 then Refuse(WeightTooSmall)
      else if w > 300.0 then Refuse(WeightTooBig)
      else Accept(w)
  }

  /** `validate_height`: 100 to 250 cm. */
  function ValidateHeight(text: string): (r: Checked<int>)
    ensures r.isValid <==> r.value.Some?
  {
    match ParseInt(text)
    case None => Refuse(HeightFormat)
    case Some(h) =>
      if h < 100 then Refuse(HeightTooSmall)
      else if h > 250 then Refuse(HeightTooBig)
      else Accept(h)
  }

  /** `validate_age`: 10 to 100 years. */
  function ValidateAge(text: string): (r: Checked<int>)
    ensures r.isValid <==> r.value.Some?
  {
    match ParseInt(text)
    case None => Refuse(AgeFormat)
    case Some(a) =>
      if a < 10 then Refuse(AgeTooSmall)
      else if a > 100 then Refuse(AgeTooBig)
      else Accept(a)
  }

  /** A weight is accepted exactly when it reads as a number in [30, 300], and then that number is returned. */
  lemma WeightAcceptedRange(text: string)
    ensures ValidateWeight(text).isValid <==>
      ParseFloat(CommaToPoint(text)).Some? && 30.0 <= ParseFloat(CommaToPoint(text)).value <= 300.0
    ensures ValidateWeight(text).isValid ==> ValidateWeight(text).value == ParseFloat(CommaToPoint(text))
  {
  }

  /** A height is accepted exactly when it reads as an integer in [100, 250]; an age in [10, 100]. */
  lemma HeightAndAgeRanges(text: string)
    ensures ValidateHeight(text).isValid <==> ParseInt(text).Some? && 100 <= ParseInt(text).value <= 250
    ensures ValidateAge(text).isValid <==> ParseInt(text).Some? && 10 <= ParseInt(text).value <= 100
    ensures ValidateHeight(text).isValid ==> ValidateHeight(text).value == ParseInt(text)
    ensures ValidateAge(text).isValid ==> ValidateAge(text).value == ParseInt(text)
  {
  }

  /** Every height in range is accepted back from its own decimal text. */
  lemma HeightRoundTrip(h: int)
    requires 100 <= h <= 250
    ensures ValidateHeight(IntToString(h)) == Accept(h)
  {
    ParseIntRoundTrip(h);
  }

  /** A comma-free text with the one comma between them made a point. */
  lemma OneCommaReplaced(a: string, b: string)
    ensures CommaToPoint(a + "," + b) == CommaToPoint(a) + "." + CommaToPoint(b)
  {
    var s := a + "," + b;
    assert s[|a|] == ',';
    assert forall i :: 0 <= i < |a| ==> s[i] == a[i];
    assert forall i :: |a| < i < |s| ==> s[i] == b[i - |a| - 1];
  }

  /** Text without a comma is left alone. */
  lemma NoCommaUnchanged(s: string)
    requires forall k :: 0 <= k < |s| ==> s[k] != ','
    ensures CommaToPoint(s) == s
  {
  }

  /** A whole number of kilograms reads as itself and is judged against [30, 300]. */
  lemma WholeKilograms(n: nat)
    ensures ValidateWeight(NatToString(n)) ==
      if n < 30 then Refuse(WeightTooSmall) else if n > 300 then Refuse(WeightTooBig) else Accept(n as real)
  {
    var s := NatToString(n);
    NoCommaUnchanged(s);
    ParseIntRoundTrip(n);
    ParseFloatOfInteger(s);
  }

  /** Whole kilograms, a decimal comma and one more digit: "75,5" reads as 75.5. */
  lemma DecimalCommaWeight(n: nat, d: nat)
    requires d < 10
    ensures var w := n as real + d as real / 10.0;
      ValidateWeight(NatToString(n) + "," + [DigitChar(d)]) ==
        if w < 30.0 then Refuse(WeightTooSmall) else if w > 300.0 then Refuse(WeightTooBig) else Accept(w)
  {
    var a, b := NatToString(n), [DigitChar(d)];
    assert CommaToPoint(a + "," + b) == a + "." + b by {
      OneCommaReplaced(a, b);
      NoCommaUnchanged(a);
      NoCommaUnchanged(b);
    }
    assert AllDigits(a) && AllDigits(b);
    DecimalText(a, b);
    OneDigitFraction(n, d);
  }

  /** The decimal value of `n` followed by one digit `d` after the point. */
  lemma OneDigitFraction(n: nat, d: nat)
    requires d < 10
    ensures DecimalValue(NatToString(n), [DigitChar(d)]) == n as real + d as real / 10.0
  {
    NatToStringRoundTrip(n);
    var b := [DigitChar(d)];
    assert b[..0] == [];
    assert DigitsValue(b) == d;
    assert Pow10(1) == 10;
  }

  /** Digits, a point and digits read as the decimal number they spell. */
  lemma DecimalText(a: string, b: string)
    requires |a| > 0 && AllDigits(a) && |b| > 0 && AllDigits(b)
    ensures ParseFloat(a + "." + b) == Some(DecimalValue(a, b))
  {
    var s := a + "." + b;
    assert IsDigit(s[0]) && IsDigit(s[|s| - 1]);
    StripUnchanged(s);
    assert Unsigned(s) == (s, false);
    assert FindChar(s, '.', 0) == |a| by {
      assert s[|a|] == '.';
      assert forall q :: 0 <= q < |a| ==> s[q] == a[q];
    }
    assert s[..|a|] == a && s[|a| + 1..] == b;
  }

  /** "abc" is not a number. */
  lemma LettersRefused(c: string)
    requires c == "abc"
    ensures ValidateWeight(c) == Refuse(WeightFormat)
  {
    NoCommaUnchanged(c);
    StripUnchanged(c);
    assert !IsDigit(c[0]);
  }

  const Goals: map<string, string> := map[
    "1" := "weight_loss", "похудение" := "weight_loss", "похудеть" := "weight_loss", "weight_loss" := "weight_loss",
    "2" := "muscle_gain", "набор" := "muscle_gain", "масса" := "muscle_gain", "muscle_gain" := "muscle_gain",
    "3" := "maintenance", "поддержание" := "maintenance", "maintenance" := "maintenance"]

  const Genders: map<string, string> := map[
    "1" := "male", "мужской" := "male", "м" := "male", "male" := "male",
    "2" := "female", "женский" := "female", "ж" := "female", "female" := "female"]

  const GoalChoice := "Неверный выбор. Отправь номер (1, 2 или 3) или название цели"
  const GenderChoice := "Неверный выбор. Отправь номер (1 или 2) или название"

  /** `validate_goal`: the lower-cased text looked up in the goal table. */
  function ValidateGoal(text: string): Checked<string>
  {
    var key := Lower(text);
    if key in Goals then Accept(Goals[key]) else Refuse(GoalChoice)
  }

  /** `validate_gender`: the lower-cased text looked up in the gender table. */
  function ValidateGender(text: string): Checked<string>
  {
    var key := Lower(text);
    if key in Genders then Accept(Genders[key]) else Refuse(GenderChoice)
  }

  lemma LowerIdempotent(s: string)
    ensures Lower(Lower(s)) == Lower(s)
  {
    forall i | 0 <= i < |s|
      ensures LowerChar(LowerChar(s[i])) == LowerChar(s[i])
    {
    }
  }

  /** Lower-case ASCII letters and underscores are left alone by `lower()`. */
  lemma LowerOfIdentifier(s: string)
    requires forall k :: 0 <= k < |s| ==> 'a' <= s[k] <= 'z' || s[k] == '_'
    ensures Lower(s) == s
  {
  }

  /** Every goal is one of the three, and each of the three is its own key. */
  lemma GoalValues()
    ensures forall k :: k in Goals ==> Goals[k] in {"weight_loss", "muscle_gain", "maintenance"}
    ensures forall g :: g in {"weight_loss", "muscle_gain", "maintenance"} ==> g in Goals && Goals[g] == g
  {
  }

  /** Case does not matter, an accepted goal is one of the three, and each of the three reads as itself. */
  lemma GoalTable(text: string)
    ensures ValidateGoal(Lower(text)) == ValidateGoal(text)
    ensures ValidateGoal(text).isValid ==> ValidateGoal(text).value.value in {"weight_loss", "muscle_gain", "maintenance"}
    ensures ValidateGoal(text).isValid ==> ValidateGoal(ValidateGoal(text).value.value) == ValidateGoal(text)
  {
    LowerIdempotent(text);
    GoalValues();
    GoalNamesLower();
  }

  lemma GoalNamesLower()
    ensures Lower("weight_loss") == "weight_loss" && Lower("muscle_gain") == "muscle_gain"
    ensures Lower("maintenance") == "maintenance"
  {
    IdentifierLower("weight_loss");
    IdentifierLower("muscle_gain");
    IdentifierLower("maintenance");
  }

  lemma IdentifierLower(s: string)
    requires s == "weight_loss" || s == "muscle_gain" || s == "maintenance" || s == "male" || s == "female"
    ensures Lower(s) == s
  {
    assert forall k :: 0 <= k < |s| ==> 'a' <= s[k] <= 'z' || s[k] == '_';
    LowerOfIdentifier(s);
  }

  /** Every gender is "male" or "female", and each is its own key. */
  lemma GenderValues()
    ensures forall k :: k in Genders ==> Genders[k] in {"male", "female"}
    ensures forall g :: g in {"male", "female"} ==> g in Genders && Genders[g] == g
  {
  }

  /** Case does not matter, an accepted gender is "male" or "female", and each reads as itself. */
  lemma GenderTable(text: string)
    ensures ValidateGender(Lower(text)) == ValidateGender(text)
    ensures ValidateGender(text).isValid ==> ValidateGender(text).value.value in {"male", "female"}
    ensures ValidateGender(text).isValid ==> ValidateGender(ValidateGender(text).value.value) == ValidateGender(text)
  {
    LowerIdempotent(text);
    GenderValues();
    IdentifierLower("male");
    IdentifierLower("female");
  }
}
