/**
 * The transcript scanner of the video-note pipeline
 * (modules/video_analysis/audio_context_parser.py).
 *
 * A transcription is lower-cased and scanned against fixed lexicons: the
 * first food word found becomes the primary dish, the first weight found
 * becomes its weight guess, and quantities are handed out to the other
 * foods in order. Audio extraction and the speech-to-text call are
 * outside the model; their outcomes are parameters of `ExtractHypothesis`.
 */
module AudioContextParser {
  import opened Common

  datatype WeightGuess = WeightGuess(value: nat, unit: string, confidence: real)

  datatype PrimaryDish = PrimaryDish(name: string, weightGuess: Option<WeightGuess>)

  /** `quantity` is `None` when the source leaves the key out of the item. */
  datatype SecondaryItem = SecondaryItem(name: string, confidence: real, quantity: Option<string>)

  datatype Hypothesis = Hypothesis(
    primaryDish: Option<PrimaryDish>,
    secondaryItems: seq<SecondaryItem>,
    mentionedItems: seq<string>,
    cookingStyle: Option<string>,
    certaintyWords: seq<string>)

  /** The dict `extract_hypothesis` returns. */
  datatype AudioHypothesis = AudioHypothesis(transcription: string, hypothesis: Hypothesis)

  /** One `findall` hit of `(\d+)\s*(unit|...)`: the digits and the unit matched. */
  datatype NumberUnit = NumberUnit(digits: string, unit: string)

  // Lexicons, in the order the source lists them (the order matters).

  const CertaintyLexicon: seq<string> :=
    ["думаю", "наверное", "примерно", "около", "может быть", "точно", "уверен"]

  const StyleLexicon: seq<string> :=
    ["жареный", "жареная", "варёный", "варёная", "тушёный", "тушёная",
     "печёный", "печёная", "запечённый", "запечённая"]

  const FoodLexicon: seq<string> :=
    ["пюре", "суп", "каша", "салат", "котлета", "курица", "рыба",
     "мясо", "овощи", "хлеб", "рис", "макароны", "гречка"]

  /** Alternatives of the weight pattern, tried left to right. */
  const WeightUnits: seq<string> := ["г", "грам", "грамм", "кг", "кило"]

  /** Alternatives of the quantity pattern, tried left to right. */
  const QuantityUnits: seq<string> := ["куск", "кусок", "шт", "штук", "ломтик", "ломтика"]

  // ---------------------------------------------------------------------
  // Lexicon scan
  // ---------------------------------------------------------------------

  /** The lexicon words that occur in `t`, kept in lexicon order. */
  function Present(lexicon: seq<string>, t: string): seq<string>
  {
    if |lexicon| == 0 then []
    else
      var w := lexicon[|lexicon| - 1];
      Present(lexicon[..|lexicon| - 1], t) + (if Contains(t, w) then [w] else [])
  }

  predicate Distinct(s: seq<string>)
  {
    forall i, j :: 0 <= i < j < |s| ==> s[i] != s[j]
  }

  /** A word is reported exactly when it is in the lexicon and in the text. */
  lemma {:induction false} PresentMembers(lexicon: seq<string>, t: string, w: string)
    ensures w in Present(lexicon, t) <==> w in lexicon && Contains(t, w)
    decreases |lexicon|
  {
    if |lexicon| > 0 {
      var n := |lexicon| - 1;
      PresentMembers(lexicon[..n], t, w);
      assert lexicon == lexicon[..n] + [lexicon[n]];
    }
  }

  /** The first word reported is the first lexicon word that occurs in the text. */
  lemma {:induction false} PresentFirst(lexicon: seq<string>, t: string, k: nat)
    requires k < |lexicon| && Contains(t, lexicon[k])
    requires forall j :: 0 <= j < k ==> !Contains(t, lexicon[j])
    ensures |Present(lexicon, t)| > 0 && Present(lexicon, t)[0] == lexicon[k]
    decreases |lexicon|
  {
    var n := |lexicon| - 1;
    var prefix := lexicon[..n];
    if k < n {
      assert prefix[k] == lexicon[k];
      PresentFirst(prefix, t, k);
    } else if |Present(prefix, t)| > 0 {
      PresentMembers(prefix, t, Present(prefix, t)[0]);
      assert false;
    }
  }

  /** A duplicate-free lexicon gives a duplicate-free report. */
  lemma {:induction false} PresentDistinct(lexicon: seq<string>, t: string)
    requires Distinct(lexicon)
    ensures Distinct(Present(lexicon, t))
    decreases |lexicon|
  {
    if |lexicon| > 0 {
      var n := |lexicon| - 1;
      assert Distinct(lexicon[..n]);
      PresentDistinct(lexicon[..n], t);
      PresentMembers(lexicon[..n], t, lexicon[n]);
    }
  }

  /** `a` is `b` with some elements deleted (greedy match from the end). */
  predicate IsSubsequence(a: seq<string>, b: seq<string>)
  {
    if |a| == 0 then true
    else if |b| == 0 then false
    else if a[|a| - 1] == b[|b| - 1] then IsSubsequence(a[..|a| - 1], b[..|b| - 1])
    else IsSubsequence(a, b[..|b| - 1])
  }

  /**
   * The report keeps lexicon order, whatever order the words were spoken
   * in: it is the lexicon with the absent words deleted.
   */
  lemma {:induction false} PresentKeepsLexiconOrder(lexicon: seq<string>, t: string)
    requires Distinct(lexicon)
    ensures IsSubsequence(Present(lexicon, t), lexicon)
    decreases |lexicon|
  {
    if |lexicon| > 0 {
      var n := |lexicon| - 1;
      var w := lexicon[n];
      var rest := Present(lexicon[..n], t);
      assert Distinct(lexicon[..n]);
      PresentKeepsLexiconOrder(lexicon[..n], t);
      if Contains(t, w) {
        assert (rest + [w])[..|rest|] == rest;
      } else {
        assert Present(lexicon, t) == rest;
        if |rest| > 0 {
          PresentMembers(lexicon[..n], t, rest[|rest| - 1]);
          assert rest[|rest| - 1] != w;
        }
      }
    }
  }

  // ---------------------------------------------------------------------
  // `re.findall(r'(\d+)\s*(u1|u2|...)', t)`
  // ---------------------------------------------------------------------

  /** The first alternative that matches at `r`, as the regex engine tries them. */
  function FirstUnitAt(t: string, r: nat, units: seq<string>): (u: Option<string>)
    ensures u.Some? ==> u.value in units && PrefixAt(t, r, u.value)
    ensures u.None? ==> forall k :: 0 <= k < |units| ==> !PrefixAt(t, r, units[k])
  {
    if |units| == 0 then None
    else if PrefixAt(t, r, units[0]) then Some(units[0])
    else FirstUnitAt(t, r, units[1..])
  }

  /**
   * The match the engine finds when it starts at `p`, with the position
   * after it. A match starts at a digit, takes the whole digit run, then
   * optional whitespace, then a unit; shorter digit or whitespace runs
   * cannot match because units start with a letter.
   */
  function MatchAt(t: string, units: seq<string>, p: nat): (r: Option<(NumberUnit, nat)>)
    requires forall k :: 0 <= k < |units| ==> |units[k]| > 0
    requires p < |t|
    ensures r.Some? ==> p < r.value.1 <= |t| && r.value.0.unit in units
    ensures r.Some? <==> IsDigit(t[p]) && FirstUnitAt(t, SkipSpaces(t, SkipDigits(t, p)), units).Some?
  {
    if IsDigit(t[p]) then
      var q := SkipDigits(t, p);
      var r := SkipSpaces(t, q);
      match FirstUnitAt(t, r, units)
      case Some(u) => Some((NumberUnit(t[p..q], u), r + |u|))
      case None => None
    else None
  }

  /** Non-overlapping matches from `p` on: after a miss the engine moves one place on. */
  function FindNumberUnits(t: string, units: seq<string>, p: nat): (ms: seq<NumberUnit>)
    requires forall k :: 0 <= k < |units| ==> |units[k]| > 0
    decreases |t| - p
  {
    if p >= |t| then []
    else match MatchAt(t, units, p)
      case Some((m, next)) => [m] + FindNumberUnits(t, units, next)
      case None => FindNumberUnits(t, units, p + 1)
  }

  /** The first match found from `p` is the one at the leftmost position where a match starts. */
  lemma {:induction false} FindFirstAt(t: string, units: seq<string>, p: nat, q: nat)
    requires forall k :: 0 <= k < |units| ==> |units[k]| > 0
    requires p <= q < |t| && MatchAt(t, units, q).Some?
    requires forall r :: p <= r < q ==> MatchAt(t, units, r).None?
    ensures |FindNumberUnits(t, units, p)| > 0 && FindNumberUnits(t, units, p)[0] == MatchAt(t, units, q).value.0
    decreases q - p
  {
    if p < q {
      assert MatchAt(t, units, p).None?;
      FindFirstAt(t, units, p + 1, q);
    }
  }

  /** When every unit the engine can pick is allowed, every match carries an allowed unit. */
  lemma {:induction false} FoundUnitsAllowed(t: string, units: seq<string>, p: nat, allowed: seq<string>)
    requires forall k :: 0 <= k < |units| ==> |units[k]| > 0
    requires forall r: nat :: FirstUnitAt(t, r, units).Some? ==> FirstUnitAt(t, r, units).value in allowed
    ensures forall m :: m in FindNumberUnits(t, units, p) ==> m.unit in allowed
    decreases |t| - p
  {
    if p < |t| {
      match MatchAt(t, units, p)
      case Some((m, next)) =>
        FoundUnitsAllowed(t, units, next, allowed);
        assert FirstUnitAt(t, SkipSpaces(t, SkipDigits(t, p)), units) == Some(m.unit);
      case None =>
        FoundUnitsAllowed(t, units, p + 1, allowed);
    }
  }

  /** Every match carries one of the pattern's own units. */
  lemma MatchedUnitsFromPattern(t: string, units: seq<string>, p: nat)
    requires forall k :: 0 <= k < |units| ==> |units[k]| > 0
    ensures forall m :: m in FindNumberUnits(t, units, p) ==> m.unit in units
  {
    FoundUnitsAllowed(t, units, p, units);
  }

  /** "грам" and "грамм" both start with "г", which the engine tries first. */
  lemma GramShadows(t: string, r: nat)
    ensures FirstUnitAt(t, r, WeightUnits).Some? ==> FirstUnitAt(t, r, WeightUnits).value in ["г", "кг", "кило"]
  {
    if PrefixAt(t, r, "грам") {
      assert t[r..r + 1] == t[r..r + 4][..1];
      assert PrefixAt(t, r, "г");
    } else if PrefixAt(t, r, "грамм") {
      assert t[r..r + 1] == t[r..r + 5][..1];
      assert PrefixAt(t, r, "г");
    }
  }

  /**
   * Because "г" is tried before "грам" and "грамм", the weight unit is only
   * ever "г", "кг" or "кило".
   */
  lemma WeightUnitsShadowed(t: string, p: nat)
    ensures forall m :: m in FindNumberUnits(t, WeightUnits, p) ==> m.unit in ["г", "кг", "кило"]
  {
    forall r: nat
      ensures FirstUnitAt(t, r, WeightUnits).Some? ==> FirstUnitAt(t, r, WeightUnits).value in ["г", "кг", "кило"]
    {
      GramShadows(t, r);
    }
    FoundUnitsAllowed(t, WeightUnits, p, ["г", "кг", "кило"]);
  }

  // ---------------------------------------------------------------------
  // The hypothesis
  // ---------------------------------------------------------------------

  function QuantityText(m: NumberUnit): string
  {
    m.digits + " " + m.unit
  }

  /** Secondary foods, each taking the next unused quantity while any is left. */
  function Secondary(foods: seq<string>, quantities: seq<NumberUnit>): seq<SecondaryItem>
  {
    if |foods| == 0 then []
    else
      var quantity := if |quantities| == 0 then None else Some(QuantityText(quantities[0]));
      [SecondaryItem(foods[0], 0.6, quantity)]
      + Secondary(foods[1..], if |quantities| == 0 then [] else quantities[1..])
  }

  /** Item `i` gets the `i`-th quantity, and items past the last quantity get none. */
  lemma {:induction false} SecondaryPairing(foods: seq<string>, quantities: seq<NumberUnit>)
    ensures |Secondary(foods, quantities)| == |foods|
    ensures forall i :: 0 <= i < |foods| ==>
      Secondary(foods, quantities)[i] == SecondaryItem(foods[i], 0.6,
        if i < |quantities| then Some(QuantityText(quantities[i])) else None)
    decreases |foods|
  {
    if |foods| > 0 {
      var rest := if |quantities| == 0 then [] else quantities[1..];
      SecondaryPairing(foods[1..], rest);
      forall i | 0 < i < |foods|
        ensures Secondary(foods, quantities)[i] == SecondaryItem(foods[i], 0.6,
          if i < |quantities| then Some(QuantityText(quantities[i])) else None)
      {
        assert Secondary(foods, quantities)[i] == Secondary(foods[1..], rest)[i - 1];
        if |quantities| > 0 {
          assert i - 1 < |rest| <==> i < |quantities|;
          if i < |quantities| {
            assert rest[i - 1] == quantities[i];
          }
        }
      }
    }
  }

  function WeightMatches(t: string): seq<NumberUnit>
  {
    FindNumberUnits(t, WeightUnits, 0)
  }

  function QuantityMatches(t: string): seq<NumberUnit>
  {
    FindNumberUnits(t, QuantityUnits, 0)
  }

  /** The hypothesis `_parse_food_hypothesis` builds for a transcription. */
  function Hypothesize(text: string): Hypothesis
  {
    var t := Lower(text);
    var weights := WeightMatches(t);
    var certainty := Present(CertaintyLexicon, t);
    var styles := Present(StyleLexicon, t);
    var foods := Present(FoodLexicon, t);
    var guess :=
      if |weights| == 0 then None
      else Some(WeightGuess(DigitsValue(weights[0].digits), weights[0].unit,
                            if |certainty| > 0 then 0.5 else 0.7));
    Hypothesis(
      if |foods| == 0 then None else Some(PrimaryDish(foods[0], guess)),
      if |foods| == 0 then [] else Secondary(foods[1..], QuantityMatches(t)),
      foods,
      if |styles| == 0 then None else Some(styles[0]),
      certainty)
  }

  /** One lexicon loop: `[w for w in lexicon if w in t]`, written as the source's append loop. */
  method ScanLexicon(lexicon: seq<string>, t: string) returns (found: seq<string>)
    ensures found == Present(lexicon, t)
  {
    found := [];
    for i := 0 to |lexicon|
      invariant found == Present(lexicon[..i], t)
    {
      assert lexicon[..i + 1][..i] == lexicon[..i];
      if Contains(t, lexicon[i]) {
        found := found + [lexicon[i]];
      }
    }
    assert lexicon[..|lexicon|] == lexicon;
  }

  /** The loop over the foods after the first, handing out quantities in order. */
  method PairQuantities(others: seq<string>, quantities: seq<NumberUnit>) returns (items: seq<SecondaryItem>)
    ensures items == Secondary(others, quantities)
  {
    items := [];
    var left := quantities;
    for j := 0 to |others|
      invariant |items| == j
      invariant left == if j < |quantities| then quantities[j..] else []
      invariant forall i :: 0 <= i < j ==> items[i] == SecondaryItem(others[i], 0.6,
        if i < |quantities| then Some(QuantityText(quantities[i])) else None)
    {
      var item := SecondaryItem(others[j], 0.6, None);
      if |left| > 0 {
        item := item.(quantity := Some(QuantityText(left[0])));
        left := left[1..];
      }
      items := items + [item];
    }
    SecondaryPairing(others, quantities);
  }

  /** Transcript scanner: lexicon loops, then the primary dish, then the secondary items. */
  method ParseFoodHypothesis(text: string) returns (h: Hypothesis)
    ensures h == Hypothesize(text)
  {
    var t := Lower(text);
    var weights := WeightMatches(t);
    var quantities := QuantityMatches(t);
    var certaintyWords := ScanLexicon(CertaintyLexicon, t);
    var cookingStyles := ScanLexicon(StyleLexicon, t);
    var mentionedFoods := ScanLexicon(FoodLexicon, t);

    h := Hypothesis(None, [], mentionedFoods,
                    if |cookingStyles| > 0 then Some(cookingStyles[0]) else None,
                    certaintyWords);

    if |mentionedFoods| > 0 {
      var weightGuess: Option<WeightGuess> := None;
      if |weights| > 0 {
        var confidence := if |certaintyWords| > 0 then 0.5 else 0.7;
        weightGuess := Some(WeightGuess(DigitsValue(weights[0].digits), weights[0].unit, confidence));
      }
      var secondary := PairQuantities(mentionedFoods[1..], quantities);
      h := h.(primaryDish := Some(PrimaryDish(mentionedFoods[0], weightGuess)), secondaryItems := secondary);
    }
  }

  /** The hypothesis fields relate to the lexicon scan as the source promises. */
  lemma HypothesisShape(text: string)
    ensures var t := Lower(text);
      var h := Hypothesize(text);
      && (h.primaryDish.None? <==> |h.mentionedItems| == 0)
      && (h.primaryDish.Some? ==> h.primaryDish.value.name == h.mentionedItems[0])
      && (h.primaryDish.Some? ==>
            (h.primaryDish.value.weightGuess.Some? <==> |WeightMatches(t)| > 0))
      && (h.primaryDish.Some? && h.primaryDish.value.weightGuess.Some? ==>
            h.primaryDish.value.weightGuess.value.confidence
              == (if exists w :: w in CertaintyLexicon && Contains(t, w) then 0.5 else 0.7))
      && (|h.mentionedItems| > 0 ==> |h.secondaryItems| == |h.mentionedItems| - 1)
      && (forall i :: 0 <= i < |h.secondaryItems| ==>
            h.secondaryItems[i].name == h.mentionedItems[i + 1]
            && h.secondaryItems[i].confidence == 0.6)
      && (forall w :: w in h.mentionedItems <==> w in FoodLexicon && Contains(t, w))
      && (h.cookingStyle.Some? <==> exists w :: w in StyleLexicon && Contains(t, w))
  {
    var t := Lower(text);
    var h := Hypothesize(text);
    forall w ensures w in h.mentionedItems <==> w in FoodLexicon && Contains(t, w) {
      PresentMembers(FoodLexicon, t, w);
    }
    forall w ensures w in h.certaintyWords <==> w in CertaintyLexicon && Contains(t, w) {
      PresentMembers(CertaintyLexicon, t, w);
    }
    forall w ensures w in Present(StyleLexicon, t) <==> w in StyleLexicon && Contains(t, w) {
      PresentMembers(StyleLexicon, t, w);
    }
    if |h.certaintyWords| > 0 {
      assert h.certaintyWords[0] in h.certaintyWords;
    }
    if |Present(StyleLexicon, t)| > 0 {
      assert Present(StyleLexicon, t)[0] in Present(StyleLexicon, t);
    }
    if |h.mentionedItems| > 0 {
      SecondaryPairing(h.mentionedItems[1..], QuantityMatches(t));
    }
  }

  /**
   * The cooking style and the primary dish are the first words of their
   * lexicons, in lexicon order, that the transcript contains.
   */
  lemma HypothesisFirstWords(text: string)
    ensures var t := Lower(text);
      var h := Hypothesize(text);
      && (forall k :: (0 <= k < |StyleLexicon| && Contains(t, StyleLexicon[k])
                       && forall j :: 0 <= j < k ==> !Contains(t, StyleLexicon[j])) ==>
            h.cookingStyle == Some(StyleLexicon[k]))
      && (forall k :: (0 <= k < |FoodLexicon| && Contains(t, FoodLexicon[k])
                       && forall j :: 0 <= j < k ==> !Contains(t, FoodLexicon[j])) ==>
            h.primaryDish.Some? && h.primaryDish.value.name == FoodLexicon[k])
  {
    var t := Lower(text);
    forall k | 0 <= k < |StyleLexicon| && Contains(t, StyleLexicon[k])
                && (forall j :: 0 <= j < k ==> !Contains(t, StyleLexicon[j]))
      ensures Hypothesize(text).cookingStyle == Some(StyleLexicon[k])
    {
      PresentFirst(StyleLexicon, t, k);
    }
    forall k | 0 <= k < |FoodLexicon| && Contains(t, FoodLexicon[k])
                && (forall j :: 0 <= j < k ==> !Contains(t, FoodLexicon[j]))
      ensures Hypothesize(text).primaryDish.Some? && Hypothesize(text).primaryDish.value.name == FoodLexicon[k]
    {
      PresentFirst(FoodLexicon, t, k);
    }
  }

  /**
   * The weight guess of a primary dish is read from the leftmost number
   * followed by a weight unit: its value is that number, its unit that
   * unit, which is always "г", "кг" or "кило".
   */
  lemma HypothesisWeightGuess(text: string, q: nat)
    requires var t := Lower(text);
      && q < |t| && MatchAt(t, WeightUnits, q).Some?
      && forall r :: 0 <= r < q ==> MatchAt(t, WeightUnits, r).None?
    requires Hypothesize(text).primaryDish.Some?
    ensures var t := Lower(text);
      var m := MatchAt(t, WeightUnits, q).value.0;
      var g := Hypothesize(text).primaryDish.value.weightGuess;
      && g.Some? && g.value.value == DigitsValue(m.digits) && g.value.unit == m.unit
      && m.unit in ["г", "кг", "кило"]
  {
    FirstWeightMatch(Lower(text), q);
    GuessFromFirstWeight(text);
  }

  /** The first weight match is the one at the leftmost position where one starts. */
  lemma FirstWeightMatch(t: string, q: nat)
    requires q < |t| && MatchAt(t, WeightUnits, q).Some?
    requires forall r :: 0 <= r < q ==> MatchAt(t, WeightUnits, r).None?
    ensures |WeightMatches(t)| > 0 && WeightMatches(t)[0] == MatchAt(t, WeightUnits, q).value.0
    ensures MatchAt(t, WeightUnits, q).value.0.unit in ["г", "кг", "кило"]
  {
    var ws := WeightMatches(t);
    FindFirstAt(t, WeightUnits, 0, q);
    WeightUnitsShadowed(t, 0);
    assert ws[0] in ws;
  }

  /** A primary dish's weight guess comes from the first weight match, when there is one. */
  lemma GuessFromFirstWeight(text: string)
    requires Hypothesize(text).primaryDish.Some? && |WeightMatches(Lower(text))| > 0
    ensures var ws := WeightMatches(Lower(text));
      var g := Hypothesize(text).primaryDish.value.weightGuess;
      g.Some? && g.value.value == DigitsValue(ws[0].digits) && g.value.unit == ws[0].unit
  {
  }

  // ---------------------------------------------------------------------
  // extract_hypothesis
  // ---------------------------------------------------------------------

  /** The hypothesis returned in mock mode and whenever extraction fails. */
  function MockHypothesis(): (a: AudioHypothesis)
    ensures a.transcription == ""
    ensures a.hypothesis.primaryDish.None? && a.hypothesis.cookingStyle.None?
    ensures a.hypothesis.secondaryItems == [] && a.hypothesis.mentionedItems == []
    ensures a.hypothesis.certaintyWords == []
  {
    AudioHypothesis("", Hypothesis(None, [], [], None, []))
  }

  /**
   * `extract_hypothesis` with the ffmpeg step and the transcription call
   * replaced by their outcomes: `audioExtracted` says whether an audio file
   * was produced, `transcription` is what the speech-to-text call returned.
   */
  function ExtractHypothesis(useMock: bool, audioExtracted: bool, transcription: string): AudioHypothesis
  {
    if useMock || !audioExtracted then MockHypothesis()
    else if transcription != "" then AudioHypothesis(transcription, Hypothesize(transcription))
    else AudioHypothesis(transcription, MockHypothesis().hypothesis)
  }

  /** An empty transcription yields exactly the mock hypothesis. */
  lemma EmptyTranscriptionIsMock(useMock: bool, audioExtracted: bool)
    ensures ExtractHypothesis(useMock, audioExtracted, "") == MockHypothesis()
  {
  }

  /** A non-empty transcription is kept and scanned. */
  lemma TranscriptionIsScanned(transcription: string)
    requires transcription != ""
    ensures ExtractHypothesis(false, true, transcription).transcription == transcription
    ensures ExtractHypothesis(false, true, transcription).hypothesis == Hypothesize(transcription)
  {
  }
}
