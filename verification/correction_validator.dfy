/**
 * Recognising what a user's correction message asks for
 * (`CorrectionValidator` in utils/validators.py).
 *
 * The message is lower-cased and stripped, then four lists of regular
 * expressions are tried in a fixed order: weight change, removal, addition,
 * modification. The first pattern of the first list that is found anywhere
 * in the text decides the kind and supplies the captured words.
 *
 * Python's regular-expression engine is not available here, so each
 * pattern is written out as a matcher with the engine's own search order:
 * the leftmost starting position wins, greedy `\s+` and `\d+` take the
 * longest run first, the lazy `(.+?)` the shortest, and `.` stops at a
 * newline.
 */
module CorrectionValidator {
  import opened Common

  /** What `detect_correction_type` recognised, with its details dictionary. */
  datatype Correction =
    | ChangeWeight(newWeight: nat)
    | Remove(item: string)
    | Add(item: string, weight: Option<nat>)
    | Modify(oldItem: string, newItem: string)

  /** The capture groups of a match; `second` is empty for one-group patterns. */
  datatype Groups = Groups(first: string, second: string)

  /** The regular expressions of the validator, one constructor per shape. */
  datatype Pattern =
    | WholeWeight          // ^(\d+)\s*г(?:рамм)?$
    | WeightAfterWord      // вес\s+(\d+)\s*г(?:рамм)?
    | WeightBeforeInstead  // (\d+)\s*г(?:рамм)?\s+(?:а не|вместо)
    | WordThenRest(word: string)  // word\s+(.+)
    | MoreThenRest         // есть\s+(?:еще|ещё)\s+(.+)
    | ThisNotThat          // это\s+(.+?),?\s+а\s+не\s+(.+)
    | NotButThat           // не\s+(.+?),?\s+а\s+(.+)

  const WeightChangePatterns: seq<Pattern> := [WholeWeight, WeightAfterWord, WeightBeforeInstead]
  const RemovePatterns: seq<Pattern> :=
    [WordThenRest("нет"), WordThenRest("убери"), WordThenRest("удали"), WordThenRest("без")]
  const AddPatterns: seq<Pattern> := [WordThenRest("добавь"), MoreThenRest, WordThenRest("плюс")]
  const ModifyPatterns: seq<Pattern> := [ThisNotThat, NotButThat]

  /** The text has been through `strip()`, so it does not end in whitespace. */
  predicate Stripped(t: string)
  {
    t == [] || !IsSpace(t[|t| - 1])
  }

  // ---------------------------------------------------------------------
  // Pieces of the patterns
  // ---------------------------------------------------------------------

  /** Where the line that `k` is on ends: the next '\n', or the end of the text. */
  function LineEnd(t: string, k: nat): (e: nat)
    requires k <= |t|
    ensures k <= e <= |t|
    ensures e < |t| ==> t[e] == '\n'
    ensures forall q :: k <= q < e ==> t[q] != '\n'
  {
    var j := FindChar(t, '\n', k);
    if j < 0 then |t| else j
  }

  /** `\s+(.+)` at `i`: one or more spaces, then the rest of that line as the group. */
  function SpacesThenLine(t: string, i: nat): (g: Option<string>)
    requires i <= |t| && Stripped(t)
    ensures g.Some? ==> i < |t| && IsSpace(t[i])
  {
    if i < |t| && IsSpace(t[i]) then
      var k := SkipSpaces(t, i);
      Some(t[k..LineEnd(t, k)])
    else None
  }

  /**
   * `(\d+)\s*г` at `q`: the end of the digits and the position just after
   * the 'г'. The digits are the whole run, since neither a space nor 'г' is
   * a digit.
   */
  function DigitsThenGram(t: string, q: nat): (r: Option<(nat, nat)>)
    requires q <= |t|
    ensures r.Some? ==> q < r.value.0 < r.value.1 <= |t| && IsDigit(t[q])
    ensures r.Some? ==> r.value.0 == SkipDigits(t, q) && t[r.value.1 - 1] == 'г'
  {
    if q < |t| && IsDigit(t[q]) then
      var d := SkipDigits(t, q);
      var s := SkipSpaces(t, d);
      if s < |t| && t[s] == 'г' then Some((d, s + 1)) else None
    else None
  }

  /** `\s+(?:а не|вместо)` at `i`. */
  predicate SpacesThenInstead(t: string, i: nat)
    requires i <= |t|
  {
    i < |t| && IsSpace(t[i])
    && (PrefixAt(t, SkipSpaces(t, i), "а не") || PrefixAt(t, SkipSpaces(t, i), "вместо"))
  }

  /**
   * `,?\s+а\s+не\s+(.+)` (with `negated`) or `,?\s+а\s+(.+)` (without) at
   * `b`: the second group. The optional comma is taken when it is there;
   * leaving it out cannot help, since `\s+` does not match a comma.
   */
  function Tail(t: string, b: nat, negated: bool): Option<string>
    requires b <= |t| && Stripped(t)
  {
    var c := if b < |t| && t[b] == ',' then b + 1 else b;
    if c < |t| && IsSpace(t[c]) then
      var d := SkipSpaces(t, c);
      if d < |t| && t[d] == 'а' then
        if !negated then SpacesThenLine(t, d + 1)
        else if d + 1 < |t| && IsSpace(t[d + 1]) then
          var f := SkipSpaces(t, d + 1);
          if PrefixAt(t, f, "не") then SpacesThenLine(t, f + 2) else None
        else None
      else None
    else None
  }

  /**
   * The lazy `(.+?)` starting at `a`: the shortest group `t[a..b]` after
   * which the tail matches. A tail begins with a comma or whitespace, so
   * the group runs on over any other character without trying one.
   */
  function LazyFrom(t: string, a: nat, b: nat, negated: bool): Option<Groups>
    requires a < b <= |t| && Stripped(t)
    decreases |t| - b
  {
    if b < |t| && t[b] != ',' && !IsSpace(t[b]) then LazyFrom(t, a, b + 1, negated)
    else
      match Tail(t, b, negated)
      case Some(second) => Some(Groups(t[a..b], second))
      case None => if b < |t| && t[b] != '\n' then LazyFrom(t, a, b + 1, negated) else None
  }

  /**
   * Backtracking into the `\s+` before the lazy group: the group starts at
   * `a`, then one character earlier, and so on down to `lo`.
   */
  function SwapFrom(t: string, lo: nat, a: nat, negated: bool): Option<Groups>
    requires lo <= a <= |t| && Stripped(t)
    decreases a
  {
    var here := if a < |t| && t[a] != '\n' then LazyFrom(t, a, a + 1, negated) else None;
    if here.Some? || a == lo then here else SwapFrom(t, lo, a - 1, negated)
  }

  /** `word\s+` followed by the swap groups. */
  function SwapAt(t: string, p: nat, word: string, negated: bool): Option<Groups>
    requires p <= |t| && Stripped(t)
  {
    var k := p + |word|;
    if PrefixAt(t, p, word) && k < |t| && IsSpace(t[k]) then SwapFrom(t, k + 1, SkipSpaces(t, k), negated)
    else None
  }

  /** One pattern tried at one starting position, as `re.match` from there would. */
  function MatchAt(pat: Pattern, t: string, p: nat): Option<Groups>
    requires p <= |t| && Stripped(t)
  {
    match pat
    case WholeWeight =>
      if p > 0 then None
      else
        (match DigitsThenGram(t, 0)
         case Some((d, e)) => if e == |t| || t[e..] == "рамм" then Some(Groups(t[..d], "")) else None
         case None => None)
    case WeightAfterWord =>
      if PrefixAt(t, p, "вес") && p + 3 < |t| && IsSpace(t[p + 3]) then
        var q := SkipSpaces(t, p + 3);
        (match DigitsThenGram(t, q)
         case Some((d, _)) => Some(Groups(t[q..d], ""))
         case None => None)
      else None
    case WeightBeforeInstead =>
      (match DigitsThenGram(t, p)
       case Some((d, e)) =>
         if (PrefixAt(t, e, "рамм") && SpacesThenInstead(t, e + 4)) || SpacesThenInstead(t, e)
         then Some(Groups(t[p..d], "")) else None
       case None => None)
    case WordThenRest(word) =>
      if PrefixAt(t, p, word) then
        (match SpacesThenLine(t, p + |word|)
         case Some(g) => Some(Groups(g, ""))
         case None => None)
      else None
    case MoreThenRest =>
      if PrefixAt(t, p, "есть") && p + 4 < |t| && IsSpace(t[p + 4]) then
        var q := SkipSpaces(t, p + 4);
        if PrefixAt(t, q, "еще") || PrefixAt(t, q, "ещё") then
          (match SpacesThenLine(t, q + 3)
           case Some(g) => Some(Groups(g, ""))
           case None => None)
        else None
      else None
    case ThisNotThat => SwapAt(t, p, "это", true)
    case NotButThat => SwapAt(t, p, "не", false)
  }

  /** `re.search` from position `p` on: the leftmost position where the pattern matches. */
  function SearchFrom(pat: Pattern, t: string, p: nat): Option<Groups>
    requires p <= |t| && Stripped(t)
    decreases |t| - p
  {
    var m := MatchAt(pat, t, p);
    if m.Some? || p == |t| then m else SearchFrom(pat, t, p + 1)
  }

  function Search(pat: Pattern, t: string): Option<Groups>
    requires Stripped(t)
  {
    SearchFrom(pat, t, 0)
  }

  /** The match of the first pattern in the list that is found at all. */
  function FirstMatch(pats: seq<Pattern>, t: string): Option<Groups>
    requires Stripped(t)
  {
    if |pats| == 0 then None
    else
      var m := Search(pats[0], t);
      if m.Some? then m else FirstMatch(pats[1..], t)
  }

  // ---------------------------------------------------------------------
  // Addition with a weight
  // ---------------------------------------------------------------------

  /** `re.search(r'(\d+)\s*г', s)` from `i` on: where the leftmost match starts. */
  function GramSearch(s: string, i: nat): (q: Option<nat>)
    requires i <= |s|
    ensures q.Some? ==> i <= q.value <= |s| && DigitsThenGram(s, q.value).Some?
    decreases |s| - i
  {
    if DigitsThenGram(s, i).Some? then Some(i)
    else if i == |s| then None
    else GramSearch(s, i + 1)
  }

  /** `re.sub(r'\d+\s*г', '', s[i:])`: every match, left to right, cut out. */
  function RemoveGrams(s: string, i: nat): (r: string)
    requires i <= |s|
    ensures |r| <= |s| - i
    decreases |s| - i
  {
    if i == |s| then ""
    else
      match DigitsThenGram(s, i)
      case Some((_, e)) => RemoveGrams(s, e)
      case None => [s[i]] + RemoveGrams(s, i + 1)
  }

  /** The details of an addition: the first "<digits> г" is the weight and every such part leaves the name. */
  function AddFrom(itemText: string): Correction
  {
    match GramSearch(itemText, 0)
    case Some(q) => Add(Strip(RemoveGrams(itemText, 0)), Some(DigitsValue(itemText[q..SkipDigits(itemText, q)])))
    case None => Add(itemText, None)
  }

  // ---------------------------------------------------------------------
  // The classifier
  // ---------------------------------------------------------------------

  /** The text the patterns see: `text.lower().strip()`. */
  function Normalized(text: string): (t: string)
    ensures Stripped(t)
  {
    Strip(Lower(text))
  }

  /** `detect_correction_type`: the kind of the first list with a match, and its details. */
  function Detect(text: string): Option<Correction>
  {
    var t := Normalized(text);
    match FirstMatch(WeightChangePatterns, t)
    case Some(g) => Some(ChangeWeight(DigitsValue(g.first)))
    case None =>
      match FirstMatch(RemovePatterns, t)
      case Some(g) => Some(Remove(Strip(g.first)))
      case None =>
        match FirstMatch(AddPatterns, t)
        case Some(g) => Some(AddFrom(Strip(g.first)))
        case None =>
          match FirstMatch(ModifyPatterns, t)
          case Some(g) => Some(Modify(Strip(g.second), Strip(g.first)))
          case None => None
  }

  /** One `for pattern in ...: match = re.search(pattern, text); if match: ...` loop. */
  method FirstMatching(pats: seq<Pattern>, t: string) returns (m: Option<Groups>)
    requires Stripped(t)
    ensures m == FirstMatch(pats, t)
  {
    for i := 0 to |pats|
      invariant FirstMatch(pats, t) == FirstMatch(pats[i..], t)
    {
      assert pats[i..][1..] == pats[i + 1..];
      var found := Search(pats[i], t);
      if found.Some? {
        return found;
      }
    }
    return None;
  }

  /** `detect_correction_type`, list by list with an early return. */
  method DetectCorrectionType(text: string) returns (detected: Option<Correction>)
    ensures detected == Detect(text)
  {
    var t := Normalized(text);
    var m := FirstMatching(WeightChangePatterns, t);
    if m.Some? {
      return Some(ChangeWeight(DigitsValue(m.value.first)));
    }
    m := FirstMatching(RemovePatterns, t);
    if m.Some? {
      return Some(Remove(Strip(m.value.first)));
    }
    m := FirstMatching(AddPatterns, t);
    if m.Some? {
      return Some(AddFrom(Strip(m.value.first)));
    }
    m := FirstMatching(ModifyPatterns, t);
    if m.Some? {
      return Some(Modify(Strip(m.value.second), Strip(m.value.first)));
    }
    return None;
  }

  // ---------------------------------------------------------------------
  // Validation
  // ---------------------------------------------------------------------

  datatype Verdict = Accepted | Rejected(reason: string)

  const TooShort := "Слишком короткое сообщение"
  const TooLong := "Слишком длинное сообщение (максимум 500 символов)"
  const Unrecognised := "Не удалось распознать коррекцию. Примеры:\n"
    + "• \"нет хлеба\" - убрать\n"
    + "• \"добавь салат 100г\" - добавить\n"
    + "• \"это курица, а не свинина\" - изменить"

  /** `validate_correction`: length limits first, then the classifier. */
  function ValidateCorrection(text: string): (v: Verdict)
    ensures v == Accepted <==> 3 <= |Strip(text)| && |text| <= 500 && Detect(text).Some?
    ensures v == Rejected(TooShort) <==> |Strip(text)| < 3
    ensures v == Rejected(TooLong) <==> 3 <= |Strip(text)| && |text| > 500
    ensures v == Rejected(Unrecognised) <==> 3 <= |Strip(text)| && |text| <= 500 && Detect(text).None?
  {
    if |Strip(text)| < 3 then Rejected(TooShort)
    else if |text| > 500 then Rejected(TooLong)
    else if Detect(text).None? then Rejected(Unrecognised)
    else Accepted
  }

  // ---------------------------------------------------------------------
  // How a search ends
  // ---------------------------------------------------------------------

  lemma {:induction false} SearchFromNone(pat: Pattern, t: string, p: nat)
    requires p <= |t| && Stripped(t)
    requires forall k :: p <= k <= |t| ==> MatchAt(pat, t, k).None?
    ensures SearchFrom(pat, t, p).None?
    decreases |t| - p
  {
    if p < |t| {
      SearchFromNone(pat, t, p + 1);
    }
  }

  /** The search reports the match at the leftmost position where there is one. */
  lemma {:induction false} SearchFromLeftmost(pat: Pattern, t: string, p: nat, k: nat)
    requires p <= k <= |t| && Stripped(t)
    requires forall j :: p <= j < k ==> MatchAt(pat, t, j).None?
    requires MatchAt(pat, t, k).Some?
    ensures SearchFrom(pat, t, p) == MatchAt(pat, t, k)
    decreases k - p
  {
    if p < k {
      SearchFromLeftmost(pat, t, p + 1, k);
    }
  }

  lemma {:induction false} SearchFromFound(pat: Pattern, t: string, p: nat) returns (k: nat)
    requires p <= |t| && Stripped(t)
    requires SearchFrom(pat, t, p).Some?
    ensures p <= k <= |t| && SearchFrom(pat, t, p) == MatchAt(pat, t, k)
    decreases |t| - p
  {
    if MatchAt(pat, t, p).Some? || p == |t| {
      k := p;
    } else {
      k := SearchFromFound(pat, t, p + 1);
    }
  }

  lemma {:induction false} FirstMatchNone(pats: seq<Pattern>, t: string)
    requires Stripped(t)
    requires forall i :: 0 <= i < |pats| ==> Search(pats[i], t).None?
    ensures FirstMatch(pats, t).None?
    decreases |pats|
  {
    if |pats| > 0 {
      FirstMatchNone(pats[1..], t);
    }
  }

  lemma {:induction false} FirstMatchAt(pats: seq<Pattern>, t: string, i: nat)
    requires Stripped(t) && i < |pats|
    requires forall j :: 0 <= j < i ==> Search(pats[j], t).None?
    requires Search(pats[i], t).Some?
    ensures FirstMatch(pats, t) == Search(pats[i], t)
    decreases i
  {
    if i > 0 {
      FirstMatchAt(pats[1..], t, i - 1);
    }
  }

  // ---------------------------------------------------------------------
  // Words a pattern cannot match without
  // ---------------------------------------------------------------------

  /** Literal words one of which occurs wherever the pattern matches. */
  function Anchors(pat: Pattern): seq<string>
  {
    match pat
    case WholeWeight => ["г"]
    case WeightAfterWord => ["вес"]
    case WeightBeforeInstead => ["а не", "вместо"]
    case WordThenRest(word) => [word]
    case MoreThenRest => ["есть"]
    case ThisNotThat => ["это"]
    case NotButThat => ["не"]
  }

  /** A word occurs nowhere in `t`. */
  ghost predicate Nowhere(t: string, w: string)
  {
    forall q: nat :: !PrefixAt(t, q, w)
  }

  lemma WholeWeightAnchor(t: string, p: nat) returns (q: nat)
    requires p <= |t| && Stripped(t)
    requires MatchAt(WholeWeight, t, p).Some?
    ensures PrefixAt(t, q, "г")
  {
    var e := DigitsThenGram(t, 0).value.1;
    q := e - 1;
    PrefixAtChar(t, q, 'г');
  }

  lemma InsteadWord(t: string, i: nat) returns (j: nat, q: nat)
    requires i <= |t| && SpacesThenInstead(t, i)
    ensures j < 2 && PrefixAt(t, q, ["а не", "вместо"][j])
  {
    q := SkipSpaces(t, i);
    j := if PrefixAt(t, q, "а не") then 0 else 1;
  }

  lemma InsteadAnchor(t: string, p: nat) returns (i: nat, q: nat)
    requires p <= |t| && Stripped(t)
    requires MatchAt(WeightBeforeInstead, t, p).Some?
    ensures i < 2 && PrefixAt(t, q, ["а не", "вместо"][i])
  {
    var e := DigitsThenGram(t, p).value.1;
    if PrefixAt(t, e, "рамм") && SpacesThenInstead(t, e + 4) {
      i, q := InsteadWord(t, e + 4);
    } else {
      i, q := InsteadWord(t, e);
    }
  }

  lemma SwapAnchor(t: string, p: nat, word: string, negated: bool)
    requires p <= |t| && Stripped(t)
    requires SwapAt(t, p, word, negated).Some?
    ensures PrefixAt(t, p, word)
  {
  }

  /** Wherever a pattern matches, one of its anchor words occurs. */
  lemma MatchNeedsAnchor(pat: Pattern, t: string, p: nat) returns (i: nat, q: nat)
    requires p <= |t| && Stripped(t)
    requires MatchAt(pat, t, p).Some?
    ensures i < |Anchors(pat)| && PrefixAt(t, q, Anchors(pat)[i])
  {
    i, q := 0, p;
    match pat
    case WholeWeight =>
      q := WholeWeightAnchor(t, p);
    case WeightBeforeInstead =>
      i, q := InsteadAnchor(t, p);
    case ThisNotThat =>
      SwapAnchor(t, p, "это", true);
    case NotButThat =>
      SwapAnchor(t, p, "не", false);
    case _ =>
  }

  /** A pattern none of whose anchor words occurs is not found. */
  lemma AnchorsAbsent(pat: Pattern, t: string)
    requires Stripped(t)
    requires forall i :: 0 <= i < |Anchors(pat)| ==> Nowhere(t, Anchors(pat)[i])
    ensures Search(pat, t).None?
  {
    if Search(pat, t).Some? {
      var k := SearchFromFound(pat, t, 0);
      var i, q := MatchNeedsAnchor(pat, t, k);
      assert false;
    }
  }

  /** A word whose `j`-th letter never occurs from position `j` on occurs nowhere. */
  lemma Absent(t: string, w: string, j: nat)
    requires j < |w| && forall k :: j <= k < |t| ==> t[k] != w[j]
    ensures Nowhere(t, w)
  {
    forall q: nat
      ensures !PrefixAt(t, q, w)
    {
      if q + |w| <= |t| {
        assert t[q..q + |w|][j] == t[q + j];
      }
    }
  }


  // ---------------------------------------------------------------------
  // Steps of the matchers
  // ---------------------------------------------------------------------

  /** Text without digits matches no weight-change pattern. */
  lemma NoDigitsNoWeightChange(t: string)
    requires Stripped(t)
    requires forall c :: c in t ==> !IsDigit(c)
    ensures FirstMatch(WeightChangePatterns, t).None?
  {
    forall q: nat | q <= |t|
      ensures DigitsThenGram(t, q).None?
    {
      if q < |t| {
        assert t[q] in t;
      }
    }
    forall i | 0 <= i < |WeightChangePatterns|
      ensures Search(WeightChangePatterns[i], t).None?
    {
      SearchFromNone(WeightChangePatterns[i], t, 0);
    }
    FirstMatchNone(WeightChangePatterns, t);
  }

  /** `^(\d+)...` is not found in a text that does not start with a digit. */
  lemma WholeWeightNeedsLeadingDigit(t: string)
    requires Stripped(t) && (t == [] || !IsDigit(t[0]))
    ensures Search(WholeWeight, t).None?
  {
    SearchFromNone(WholeWeight, t, 0);
  }

  /** No tail can start at a character that is neither the comma nor whitespace. */
  lemma TailNeedsCommaOrSpace(t: string, b: nat, negated: bool)
    requires b < |t| && Stripped(t) && t[b] != ',' && !IsSpace(t[b])
    ensures Tail(t, b, negated).None?
  {
  }

  /** The lazy group runs on over characters that can start neither the comma nor the spaces. */
  lemma {:induction false} LazyOverWord(t: string, a: nat, b: nat, c: nat, negated: bool)
    requires a < b <= c <= |t| && Stripped(t)
    requires forall k :: b <= k < c ==> t[k] != ',' && !IsSpace(t[k])
    ensures LazyFrom(t, a, b, negated) == LazyFrom(t, a, c, negated)
    decreases c - b
  {
    if b < c {
      LazyOverWord(t, a, b + 1, c, negated);
    }
  }

  /** A position where no digit stands is passed over by the search for "<digits> г". */
  lemma GramSearchStep(s: string, i: nat, q: nat)
    requires i < q <= |s| && !IsDigit(s[i])
    requires GramSearch(s, i + 1) == Some(q)
    ensures GramSearch(s, i) == Some(q)
  {
  }

  /** `re.search(r'(\d+)\s*г', s)` reports the leftmost start. */
  lemma {:induction false} GramSearchLeftmost(s: string, i: nat, q: nat)
    requires i <= q <= |s|
    requires forall k :: i <= k < q ==> !IsDigit(s[k])
    requires DigitsThenGram(s, q).Some?
    ensures GramSearch(s, i) == Some(q)
    decreases q - i
  {
    if i < q {
      GramSearchLeftmost(s, i + 1, q);
      GramSearchStep(s, i, q);
    }
  }

  /** A text with no digits from `i` on has no "<digits> г" part there. */
  lemma {:induction false} GramSearchNoDigits(s: string, i: nat)
    requires i <= |s|
    requires forall k :: i <= k < |s| ==> !IsDigit(s[k])
    ensures GramSearch(s, i).None?
    decreases |s| - i
  {
    if i < |s| {
      GramSearchNoDigits(s, i + 1);
    }
  }

  /** `re.sub` copies a stretch without digits unchanged. */
  lemma {:induction false} RemoveGramsPlain(s: string, i: nat, j: nat)
    requires i <= j <= |s|
    requires forall k :: i <= k < j ==> !IsDigit(s[k])
    ensures RemoveGrams(s, i) == s[i..j] + RemoveGrams(s, j)
    decreases j - i
  {
    if i < j {
      RemoveGramsPlain(s, i + 1, j);
    }
  }

  /** An item text without digits is added under its own name with no weight. */
  lemma AddWithoutWeight(s: string)
    requires forall k :: 0 <= k < |s| ==> !IsDigit(s[k])
    ensures AddFrom(s) == Add(s, None)
  {
    GramSearchNoDigits(s, 0);
  }

  /** In "<before><n>г" the digits of `n` start right after `before` and run up to the "г". */
  lemma GramsAt(before: string, n: nat, s: string)
    requires s == before + NatToString(n) + "г"
    ensures DigitsThenGram(s, |before|) == Some((|s| - 1, |s|))
    ensures s[|before|..|s| - 1] == NatToString(n)
  {
    var digits := NatToString(n);
    var q := |before|;
    var d := q + |digits|;
    assert s[q..d] == digits && s[d] == 'г' && d + 1 == |s|;
    assert IsDigit(s[q]) by {
      assert s[q] == digits[0];
    }
    assert SkipDigits(s, q) == d by {
      forall k | q <= k < d
        ensures IsDigit(s[k])
      {
        assert s[k] == digits[k - q];
      }
    }
    assert !IsSpace(s[d]);
    assert SkipSpaces(s, d) == d;
  }

  /** "<name> <n>г" adds `name` with weight `n`: `str(n)` read back as digits is `n`, and cutting out "<n>г" leaves the name. */
  lemma AddWithWeight(name: string, n: nat, s: string)
    requires s == name + " " + NatToString(n) + "г"
    requires Trimmed(name) && forall k :: 0 <= k < |name| ==> !IsDigit(name[k])
    ensures AddFrom(s) == Add(name, Some(n))
  {
    var q := |name| + 1;
    GramsAt(name + " ", n, s);
    forall k | 0 <= k < q
      ensures !IsDigit(s[k])
    {
      if k < |name| {
        assert s[k] == name[k];
      }
    }
    GramSearchLeftmost(s, 0, q);
    RemoveGramsPlain(s, 0, q);
    assert RemoveGrams(s, q) == RemoveGrams(s, |s|) == "";
    assert RemoveGrams(s, 0) == name + " " by {
      assert s[0..q] == name + " ";
    }
    StripTrailingSpace(name, ' ');
    NatToStringRoundTrip(n);
  }

  // ---------------------------------------------------------------------
  // How the classifier decides
  // ---------------------------------------------------------------------

  /** Lower-case text with no whitespace at either end is what the patterns see. */
  lemma NormalizedUnchanged(text: string)
    requires forall c :: c in text ==> LowerChar(c) == c
    requires text == [] || (!IsSpace(text[0]) && !IsSpace(text[|text| - 1]))
    ensures Normalized(text) == text
  {
    LowerUnchanged(text);
    StripUnchanged(text);
  }

  lemma DetectRemoveWhen(text: string, g: Groups)
    requires FirstMatch(WeightChangePatterns, Normalized(text)).None?
    requires FirstMatch(RemovePatterns, Normalized(text)) == Some(g)
    ensures Detect(text) == Some(Remove(Strip(g.first)))
  {
  }

  lemma DetectAddWhen(text: string, g: Groups)
    requires FirstMatch(WeightChangePatterns, Normalized(text)).None?
    requires FirstMatch(RemovePatterns, Normalized(text)).None?
    requires FirstMatch(AddPatterns, Normalized(text)) == Some(g)
    ensures Detect(text) == Some(AddFrom(Strip(g.first)))
  {
  }

  lemma DetectModifyWhen(text: string, g: Groups)
    requires FirstMatch(WeightChangePatterns, Normalized(text)).None?
    requires FirstMatch(RemovePatterns, Normalized(text)).None?
    requires FirstMatch(AddPatterns, Normalized(text)).None?
    requires FirstMatch(ModifyPatterns, Normalized(text)) == Some(g)
    ensures Detect(text) == Some(Modify(Strip(g.second), Strip(g.first)))
  {
  }

  /** One line of lower-case text. */
  ghost predicate LowerLine(s: string)
  {
    forall c :: c in s ==> LowerChar(c) == c && c != '\n'
  }

  ghost predicate NoDigits(s: string)
  {
    forall c :: c in s ==> !IsDigit(c)
  }

  /** The characters of the documented example lines: lower-case Cyrillic letters, space, comma, hyphen. */
  predicate PlainChar(c: char)
  {
    c == ' ' || c == ',' || c == '-' || ('а' <= c <= 'я')
  }

  ghost predicate PlainLine(s: string)
  {
    forall k :: 0 <= k < |s| ==> PlainChar(s[k])
  }

  /** A plain line that may also hold digits. */
  ghost predicate PlainOrDigits(s: string)
  {
    forall k :: 0 <= k < |s| ==> PlainChar(s[k]) || IsDigit(s[k])
  }

  lemma PlainOrDigitsLower(s: string)
    requires PlainOrDigits(s)
    ensures LowerLine(s)
  {
  }

  lemma PlainLineLower(s: string)
    requires PlainLine(s)
    ensures LowerLine(s) && NoDigits(s)
  {
  }

  /** Non-empty, with no whitespace at either end. */
  predicate Trimmed(s: string)
  {
    |s| > 0 && !IsSpace(s[0]) && !IsSpace(s[|s| - 1])
  }

  /** The patterns see the line as it is, and no weight change is asked for. */
  ghost predicate SeenPlainly(t: string)
  {
    Normalized(t) == t && FirstMatch(WeightChangePatterns, t).None?
  }

  /** A trimmed lower-case line without digits is seen plainly. */
  lemma PlainLineSeen(t: string)
    requires LowerLine(t) && NoDigits(t) && Trimmed(t)
    ensures SeenPlainly(t)
  {
    NormalizedUnchanged(t);
    NoDigitsNoWeightChange(t);
  }

  lemma LowerLineTail(before: string, rest: string, t: string)
    requires t == before + rest && LowerLine(t)
    ensures LowerLine(rest)
  {
    forall c | c in rest
      ensures c in t
    {
      var i :| 0 <= i < |rest| && rest[i] == c;
      assert t[|before| + i] == c;
    }
  }

  /** `w` does not start anywhere before `n` when its `j`-th character is missing where it would have to be. */
  lemma AbsentBefore(t: string, w: string, j: nat, n: nat)
    requires j < |w| && j + n <= |t| && w[j] !in t[j..j + n]
    ensures forall q: nat :: q < n ==> !PrefixAt(t, q, w)
  {
    forall q: nat | q < n
      ensures !PrefixAt(t, q, w)
    {
      if q + |w| <= |t| {
        assert t[q..q + |w|][j] == t[j..j + n][q];
      }
    }
  }

  // ---------------------------------------------------------------------
  // Lists that find nothing
  // ---------------------------------------------------------------------

  /** Text with none of the removal words asks for no removal. */
  lemma NoRemoval(t: string)
    requires Stripped(t)
    requires Nowhere(t, "нет") && Nowhere(t, "убери") && Nowhere(t, "удали") && Nowhere(t, "без")
    ensures FirstMatch(RemovePatterns, t).None?
  {
    forall i | 0 <= i < |RemovePatterns|
      ensures Search(RemovePatterns[i], t).None?
    {
      AnchorsAbsent(RemovePatterns[i], t);
    }
    FirstMatchNone(RemovePatterns, t);
  }

  /** Text with none of the addition words asks for no addition. */
  lemma NoAddition(t: string)
    requires Stripped(t)
    requires Nowhere(t, "добавь") && Nowhere(t, "есть") && Nowhere(t, "плюс")
    ensures FirstMatch(AddPatterns, t).None?
  {
    forall i | 0 <= i < |AddPatterns|
      ensures Search(AddPatterns[i], t).None?
    {
      AnchorsAbsent(AddPatterns[i], t);
    }
    FirstMatchNone(AddPatterns, t);
  }

  /** Text with neither "это" nor "не" asks for no modification. */
  lemma NoModification(t: string)
    requires Stripped(t)
    requires Nowhere(t, "это") && Nowhere(t, "не")
    ensures FirstMatch(ModifyPatterns, t).None?
  {
    forall i | 0 <= i < |ModifyPatterns|
      ensures Search(ModifyPatterns[i], t).None?
    {
      AnchorsAbsent(ModifyPatterns[i], t);
    }
    FirstMatchNone(ModifyPatterns, t);
  }

  /** Text that does not start with a digit and has none of the weight words asks for no weight change. */
  lemma NoWeightChange(t: string)
    requires Stripped(t) && (t == [] || !IsDigit(t[0]))
    requires Nowhere(t, "вес") && Nowhere(t, "а не") && Nowhere(t, "вместо")
    ensures FirstMatch(WeightChangePatterns, t).None?
  {
    forall i | 0 <= i < |WeightChangePatterns|
      ensures Search(WeightChangePatterns[i], t).None?
    {
      if i == 0 {
        WholeWeightNeedsLeadingDigit(t);
      } else {
        AnchorsAbsent(WeightChangePatterns[i], t);
      }
    }
    FirstMatchNone(WeightChangePatterns, t);
  }

  /** The removal words before the `i`-th, given one by one. */
  lemma RemoveWordsBefore(t: string, i: nat)
    requires i < |RemovePatterns|
    requires i > 0 ==> Nowhere(t, "нет")
    requires i > 1 ==> Nowhere(t, "убери")
    requires i > 2 ==> Nowhere(t, "удали")
    ensures forall j :: 0 <= j < i ==> RemovePatterns[j].WordThenRest? && Nowhere(t, RemovePatterns[j].word)
  {
    forall j | 0 <= j < i
      ensures RemovePatterns[j].WordThenRest? && Nowhere(t, RemovePatterns[j].word)
    {
      if j == 0 {
      } else if j == 1 {
      } else {
        assert j == 2;
      }
    }
  }

  /** The first `i` patterns of a list, none of whose words occurs, are not found. */
  lemma WordsAbsent(pats: seq<Pattern>, t: string, i: nat)
    requires Stripped(t) && i <= |pats|
    requires forall j :: 0 <= j < i ==> pats[j].WordThenRest? && Nowhere(t, pats[j].word)
    ensures forall j :: 0 <= j < i ==> Search(pats[j], t).None?
  {
    forall j | 0 <= j < i ensures Search(pats[j], t).None? {
      AnchorsAbsent(pats[j], t);
    }
  }

  // ---------------------------------------------------------------------
  // Lists that find something
  // ---------------------------------------------------------------------

  /** `\s+(.+)` at a single space followed by a trimmed last line takes that whole line. */
  lemma SpaceThenRest(t: string, i: nat, rest: string)
    requires i < |t| && t[i] == ' ' && t[i + 1..] == rest
    requires Trimmed(rest) && '\n' !in rest
    ensures Stripped(t)
    ensures SpacesThenLine(t, i) == Some(rest)
  {
    var k := i + 1;
    assert t[k] == rest[0] && t[|t| - 1] == rest[|rest| - 1];
    assert SkipSpaces(t, i) == k;
    forall q | k <= q < |t|
      ensures t[q] != '\n'
    {
      assert t[q] == rest[q - k];
      assert rest[q - k] in rest;
    }
    assert t[k..|t|] == rest;
  }

  /** `word\s+(.+)` cannot match where `word` does not start. */
  lemma WordNotBefore(word: string, t: string, p: nat)
    requires p <= |t| && Stripped(t)
    requires forall q: nat :: q < p ==> !PrefixAt(t, q, word)
    ensures forall j :: 0 <= j < p ==> MatchAt(WordThenRest(word), t, j).None?
  {
  }

  lemma WordFollowsParts(before: string, word: string, rest: string, t: string)
    requires t == before + word + " " + rest
    ensures PrefixAt(t, |before|, word)
    ensures t[|before| + |word|] == ' ' && t[|before| + |word| + 1..] == rest
  {
    var p := |before|;
    assert t[p..p + |word|] == word;
  }

  lemma WordThenRestAt(word: string, t: string, p: nat, rest: string)
    requires p + |word| <= |t| && Stripped(t) && PrefixAt(t, p, word)
    requires SpacesThenLine(t, p + |word|) == Some(rest)
    ensures MatchAt(WordThenRest(word), t, p) == Some(Groups(rest, ""))
  {
  }

  /** `t` is "<before><word> <rest>", `word` is not found inside `before`, and `rest` is one trimmed line. */
  ghost predicate WordFollows(before: string, word: string, rest: string, t: string)
  {
    t == before + word + " " + rest && Trimmed(rest) && '\n' !in rest
    && forall q: nat :: q < |before| ==> !PrefixAt(t, q, word)
  }

  /** `word\s+(.+)` found first right after `before` takes the whole rest of the line. */
  lemma WordAt(before: string, word: string, rest: string, t: string)
    requires WordFollows(before, word, rest, t)
    ensures Stripped(t)
    ensures Search(WordThenRest(word), t) == Some(Groups(rest, ""))
  {
    var p := |before|;
    WordFollowsParts(before, word, rest, t);
    SpaceThenRest(t, p + |word|, rest);
    WordThenRestAt(word, t, p, rest);
    WordNotBefore(word, t, p);
    SearchFromLeftmost(WordThenRest(word), t, 0, p);
  }


  /** The removal list finds "<word> <rest>" when `word` is its `i`-th word and no earlier word occurs. */
  lemma RemoveFound(before: string, word: string, rest: string, t: string, i: nat)
    requires i < |RemovePatterns| && RemovePatterns[i] == WordThenRest(word)
    requires WordFollows(before, word, rest, t)
    requires forall j :: 0 <= j < i ==> RemovePatterns[j].WordThenRest? && Nowhere(t, RemovePatterns[j].word)
    ensures FirstMatch(RemovePatterns, t) == Some(Groups(rest, ""))
  {
    WordAt(before, word, rest, t);
    WordsAbsent(RemovePatterns, t, i);
    FirstMatchAt(RemovePatterns, t, i);
  }

  /** A plain line in which the removal list finds `rest` asks to remove `rest`. */
  lemma DetectRemovePlain(t: string, rest: string)
    requires PlainLine(t) && Trimmed(t) && Trimmed(rest)
    requires FirstMatch(RemovePatterns, t) == Some(Groups(rest, ""))
    ensures Detect(t) == Some(Remove(rest))
  {
    PlainLineLower(t);
    StripUnchanged(rest);
    PlainLineSeen(t);
    DetectRemoveWhen(t, Groups(rest, ""));
  }

  /** The addition list finds "добавь <rest>" and takes the whole rest of the line. */
  lemma AddFound(rest: string, t: string)
    requires WordFollows("", "добавь", rest, t)
    ensures Strip(rest) == rest
    ensures FirstMatch(AddPatterns, t) == Some(Groups(rest, ""))
  {
    StripUnchanged(rest);
    WordAt("", "добавь", rest, t);
    FirstMatchAt(AddPatterns, t, 0);
  }

  /** A lower-case trimmed line that asks for no weight change or removal, and that the addition list matches, asks to add. */
  lemma DetectAddPlain(t: string, rest: string)
    requires LowerLine(t) && Trimmed(t)
    requires FirstMatch(WeightChangePatterns, t).None? && FirstMatch(RemovePatterns, t).None?
    requires Strip(rest) == rest && FirstMatch(AddPatterns, t) == Some(Groups(rest, ""))
    ensures Detect(t) == Some(AddFrom(rest))
  {
    NormalizedUnchanged(t);
    DetectAddWhen(t, Groups(rest, ""));
  }

  /** What follows a one-word new item: ", а не <old>". */
  lemma NotThatTail(t: string, b: nat, second: string)
    requires b + 7 <= |t| && Stripped(t) && t[b..] == ", а не " + second
    requires Trimmed(second) && '\n' !in second
    ensures Tail(t, b, true) == Some(second)
  {
    NotThatChars(t, b, second);
    assert SkipSpaces(t, b + 1) == b + 2;
    assert SkipSpaces(t, b + 3) == b + 4;
    assert PrefixAt(t, b + 4, "не");
    SpaceThenRest(t, b + 6, second);
  }

  /** The characters of ", а не <old>" one by one. */
  lemma NotThatChars(t: string, b: nat, second: string)
    requires b + 7 <= |t| && t[b..] == ", а не " + second
    ensures t[b] == ',' && t[b + 1] == ' ' && t[b + 2] == 'а' && t[b + 3] == ' ' && t[b + 6] == ' '
    ensures t[b + 4..b + 6] == "не" && t[b + 7..] == second
  {
    var u := t[b..];
    assert u[0] == ',' && u[1] == ' ' && u[2] == 'а' && u[3] == ' ' && u[6] == ' ';
    assert u[4..6] == "не" && u[7..] == second;
  }


  /** `t` is "это <first>, а не <second>" with a one-word `first`. */
  ghost predicate ThisNotThatLine(first: string, second: string, t: string)
  {
    t == "это " + first + ", а не " + second
    && |first| > 0 && (forall c :: c in first ==> c != ',' && !IsSpace(c))
    && Trimmed(second) && '\n' !in second
  }

  /** In "это <new>, а не <old>" the lazy group stops at the comma and the rest of the line is the old item. */
  lemma ThisNotThatLazy(first: string, second: string, t: string)
    requires ThisNotThatLine(first, second, t)
    ensures Stripped(t)
    ensures LazyFrom(t, 4, 5, true) == Some(Groups(first, second))
  {
    var b := 4 + |first|;
    assert t[4..b] == first && t[b..] == ", а не " + second;
    forall k | 4 <= k < b
      ensures t[k] != ',' && !IsSpace(t[k])
    {
      assert t[k] == first[k - 4];
      assert first[k - 4] in first;
    }
    LazyOverWord(t, 4, 5, b, true);
    NotThatTail(t, b, second);
  }

  lemma ThisNotThatMatch(first: string, second: string, t: string)
    requires ThisNotThatLine(first, second, t)
    ensures Stripped(t)
    ensures Search(ThisNotThat, t) == Some(Groups(first, second))
  {
    ThisNotThatLazy(first, second, t);
    assert t[..4] == "это ";
    assert PrefixAt(t, 0, "это");
    assert SkipSpaces(t, 3) == 4;
    assert MatchAt(ThisNotThat, t, 0) == Some(Groups(first, second));
    SearchFromLeftmost(ThisNotThat, t, 0, 0);
  }

  /** The modification list finds "это <new>, а не <old>" with both items already stripped. */
  lemma ModifyFound(first: string, second: string, t: string)
    requires ThisNotThatLine(first, second, t)
    ensures Strip(first) == first && Strip(second) == second
    ensures FirstMatch(ModifyPatterns, t) == Some(Groups(first, second))
  {
    assert first[0] in first && first[|first| - 1] in first;
    StripUnchanged(first);
    StripUnchanged(second);
    ThisNotThatMatch(first, second, t);
    FirstMatchAt(ModifyPatterns, t, 0);
  }

  /** A plain line that only the modification list matches asks to rename `old` to `new`. */
  lemma DetectModifyPlain(first: string, second: string, t: string)
    requires PlainLine(t) && Trimmed(t)
    requires FirstMatch(RemovePatterns, t).None? && FirstMatch(AddPatterns, t).None?
    requires Strip(first) == first && Strip(second) == second
    requires FirstMatch(ModifyPatterns, t) == Some(Groups(first, second))
    ensures Detect(t) == Some(Modify(second, first))
  {
    PlainLineLower(t);
    PlainLineSeen(t);
    DetectModifyWhen(t, Groups(first, second));
  }

  /** "<n>г" is already lower-case and stripped. */
  lemma BareWeightNormal(n: nat, t: string)
    requires t == NatToString(n) + "г"
    ensures Normalized(t) == t
  {
    assert t[0] == NatToString(n)[0];
    forall c | c in t
      ensures LowerChar(c) == c
    {
      var k :| 0 <= k < |t| && t[k] == c;
      if k < |t| - 1 {
        assert t[k] == NatToString(n)[k];
      }
    }
    NormalizedUnchanged(t);
  }

  /** A bare weight "<n>г" asks to change the weight to `n`. */
  lemma DetectBareWeight(n: nat, t: string)
    requires t == NatToString(n) + "г"
    ensures Detect(t) == Some(ChangeWeight(n))
  {
    BareWeightNormal(n, t);
    GramsAt("", n, t);
    assert MatchAt(WholeWeight, t, 0) == Some(Groups(t[..|t| - 1], ""));
    SearchFromLeftmost(WholeWeight, t, 0, 0);
    FirstMatchAt(WeightChangePatterns, t, 0);
    NatToStringRoundTrip(n);
  }


  // ---------------------------------------------------------------------
  // The documented examples
  // ---------------------------------------------------------------------

  /** "нет хлеба" asks to remove "хлеба". */
  lemma DetectRemoveBread(t: string)
    requires t == "нет хлеба"
    ensures Detect(t) == Some(Remove("хлеба"))
  {
    assert PlainLine(t) && Trimmed(t);
    RemoveWordsBefore(t, 0);
    RemoveFound("", "нет", "хлеба", t, 0);
    DetectRemovePlain(t, "хлеба");
  }

  lemma SaladRemovalFound(t: string)
    requires t == "убери салат"
    ensures FirstMatch(RemovePatterns, t) == Some(Groups("салат", ""))
  {
    Absent(t, "нет", 0);
    RemoveWordsBefore(t, 1);
    RemoveFound("", "убери", "салат", t, 1);
  }

  /** "убери салат" asks to remove "салат". */
  lemma DetectRemoveSalad(t: string)
    requires t == "убери салат"
    ensures Detect(t) == Some(Remove("салат"))
  {
    assert PlainLine(t) && Trimmed(t) && Trimmed("салат");
    SaladRemovalFound(t);
    DetectRemovePlain(t, "салат");
  }

  lemma CucumberNoRemoval(t: string)
    requires t == "добавь огурец"
    ensures FirstMatch(RemovePatterns, t).None?
  {
    Absent(t, "нет", 0);
    Absent(t, "убери", 4);
    Absent(t, "удали", 1);
    Absent(t, "без", 2);
    NoRemoval(t);
  }

  lemma CucumberPlain(t: string)
    requires t == "добавь огурец"
    ensures Normalized(t) == t
    ensures FirstMatch(WeightChangePatterns, t).None? && FirstMatch(RemovePatterns, t).None?
  {
    assert PlainLine(t) && Trimmed(t);
    PlainLineLower(t);
    NormalizedUnchanged(t);
    NoDigitsNoWeightChange(t);
    CucumberNoRemoval(t);
  }

  lemma CucumberFound(t: string)
    requires t == "добавь огурец"
    ensures Strip("огурец") == "огурец"
    ensures FirstMatch(AddPatterns, t) == Some(Groups("огурец", ""))
  {
    AddFound("огурец", t);
  }

  /** "добавь огурец" asks to add "огурец" with no weight. */
  lemma DetectAddCucumber(t: string)
    requires t == "добавь огурец"
    ensures Detect(t) == Some(Add("огурец", None))
  {
    AddWithoutWeight("огурец");
    CucumberPlain(t);
    CucumberFound(t);
    DetectAddWhen(t, Groups("огурец", ""));
  }

  lemma SaladNoWeightChange(t: string)
    requires t == "добавь салат 100г"
    ensures FirstMatch(WeightChangePatterns, t).None?
  {
    Absent(t, "вес", 1);
    Absent(t, "а не", 2);
    Absent(t, "вместо", 1);
    NoWeightChange(t);
  }

  lemma SaladNoRemoval(t: string)
    requires t == "добавь салат 100г"
    ensures FirstMatch(RemovePatterns, t).None?
  {
    Absent(t, "нет", 0);
    Absent(t, "убери", 0);
    Absent(t, "удали", 0);
    Absent(t, "без", 1);
    NoRemoval(t);
  }

  lemma SaladPlain(t: string)
    requires t == "добавь салат 100г"
    ensures Normalized(t) == t
    ensures FirstMatch(WeightChangePatterns, t).None? && FirstMatch(RemovePatterns, t).None?
  {
    assert PlainOrDigits(t) && Trimmed(t);
    PlainOrDigitsLower(t);
    NormalizedUnchanged(t);
    SaladNoWeightChange(t);
    SaladNoRemoval(t);
  }

  lemma SaladFound(t: string)
    requires t == "добавь салат 100г"
    ensures Strip("салат 100г") == "салат 100г"
    ensures FirstMatch(AddPatterns, t) == Some(Groups("салат 100г", ""))
  {
    AddFound("салат 100г", t);
  }

  lemma SaladWeighed()
    ensures AddFrom("салат 100г") == Add("салат", Some(100))
  {
    assert NatToString(100) == "100";
    AddWithWeight("салат", 100, "салат 100г");
  }

  /** "добавь салат 100г" asks to add "салат" weighing 100 g. */
  lemma DetectAddSalad(t: string)
    requires t == "добавь салат 100г"
    ensures Detect(t) == Some(Add("салат", Some(100)))
  {
    SaladWeighed();
    SaladPlain(t);
    SaladFound(t);
    DetectAddWhen(t, Groups("салат 100г", ""));
  }

  lemma ChickenNoRemoval(t: string)
    requires t == "это курица, а не свинина"
    ensures FirstMatch(RemovePatterns, t).None?
  {
    ChickenWithoutRemovalWords(t);
    NoRemoval(t);
  }

  lemma ChickenWithoutRemovalWords(t: string)
    requires t == "это курица, а не свинина"
    ensures Nowhere(t, "нет") && Nowhere(t, "убери") && Nowhere(t, "удали") && Nowhere(t, "без")
  {
    Absent(t, "нет", 2);
    Absent(t, "убери", 1);
    Absent(t, "удали", 1);
    Absent(t, "без", 0);
  }


  lemma ChickenNoAddition(t: string)
    requires t == "это курица, а не свинина"
    ensures FirstMatch(AddPatterns, t).None?
  {
    Absent(t, "добавь", 0);
    Absent(t, "есть", 2);
    Absent(t, "плюс", 0);
    NoAddition(t);
  }

  lemma ChickenPlain(t: string)
    requires t == "это курица, а не свинина"
    ensures Normalized(t) == t
    ensures FirstMatch(WeightChangePatterns, t).None?
  {
    assert PlainLine(t) && Trimmed(t);
    PlainLineLower(t);
    NormalizedUnchanged(t);
    NoDigitsNoWeightChange(t);
  }

  lemma ChickenFound(t: string)
    requires t == "это курица, а не свинина"
    ensures Strip("курица") == "курица" && Strip("свинина") == "свинина"
    ensures FirstMatch(ModifyPatterns, t) == Some(Groups("курица", "свинина"))
  {
    ModifyFound("курица", "свинина", t);
  }

  /** "это курица, а не свинина" asks to rename "свинина" to "курица". */
  lemma DetectModifyChicken(t: string)
    requires t == "это курица, а не свинина"
    ensures Detect(t) == Some(Modify("свинина", "курица"))
  {
    ChickenPlain(t);
    ChickenNoRemoval(t);
    ChickenNoAddition(t);
    ChickenFound(t);
    DetectModifyWhen(t, Groups("курица", "свинина"));
  }

  lemma VagueNoRemoval(t: string)
    requires t == "какой-то текст"
    ensures FirstMatch(RemovePatterns, t).None?
  {
    Absent(t, "нет", 0);
    Absent(t, "убери", 0);
    Absent(t, "удали", 0);
    Absent(t, "без", 0);
    NoRemoval(t);
  }

  lemma VagueNoAdditionOrModification(t: string)
    requires t == "какой-то текст"
    ensures FirstMatch(AddPatterns, t).None? && FirstMatch(ModifyPatterns, t).None?
  {
    Absent(t, "добавь", 0);
    Absent(t, "есть", 3);
    Absent(t, "плюс", 0);
    Absent(t, "это", 0);
    Absent(t, "не", 0);
    NoAddition(t);
    NoModification(t);
  }

  lemma VaguePlain(t: string)
    requires t == "какой-то текст"
    ensures Normalized(t) == t
    ensures FirstMatch(WeightChangePatterns, t).None?
  {
    assert PlainLine(t) && Trimmed(t);
    PlainLineLower(t);
    NormalizedUnchanged(t);
    NoDigitsNoWeightChange(t);
  }

  /** "какой-то текст" matches none of the lists, so it is refused with the examples message. */
  lemma ValidateVague(t: string)
    requires t == "какой-то текст"
    ensures ValidateCorrection(t) == Rejected(Unrecognised)
  {
    VaguePlain(t);
    VagueNoRemoval(t);
    VagueNoAdditionOrModification(t);
    assert Detect(t).None?;
    StripUnchanged(t);
  }

  /** "ab" is too short. */
  lemma ValidateTwoLetters(t: string)
    requires t == "ab"
    ensures ValidateCorrection(t) == Rejected(TooShort)
  {
    StripUnchanged(t);
  }

  /** Six hundred letters are too long. */
  lemma ValidateSixHundred(t: string)
    requires t == seq(600, _ => 'a')
    ensures ValidateCorrection(t) == Rejected(TooLong)
  {
    StripUnchanged(t);
  }

  /** "нет хлеба" is accepted. */
  lemma ValidateBread(t: string)
    requires t == "нет хлеба"
    ensures ValidateCorrection(t) == Accepted
  {
    DetectRemoveBread(t);
    StripUnchanged(t);
  }
}
