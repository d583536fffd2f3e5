/**
 * Voting over per-frame analyses of a video note
 * (modules/video_analysis/evidence_aggregator.py).
 *
 * Every component name seen in any frame is put to a vote: the share of
 * frames listing it, plus 0.3 when the speaker named it, decides whether
 * it is kept and with which confidence tier. Kept components get
 * confidence-weighted mean values; the dish totals are their sums.
 *
 * The source iterates a Python `set` of names, whose order is not defined;
 * here that order is the parameter `order` of `Aggregate`, any duplicate-free
 * listing of the collected names.
 */
module EvidenceAggregator {
  import opened Common
  import opened Food
  import opened AudioContextParser

  /** The values one matching component contributes to a vote. */
  datatype Vote = Vote(weightG: real, calories: real, proteinG: real, fatG: real, carbsG: real,
                       confidence: real)

  datatype Votes = Votes(positive: nat, total: nat, values: seq<Vote>)

  /** The `confidence` string of a decision; `NoTier` is the source's 'none'. */
  datatype Tier = High | Medium | Low | NoTier

  datatype Decision = Decision(keep: bool, tier: Tier)

  /** What happens to one collected name. */
  datatype Outcome = Excluded | Included(component: Component) | DivisionByZero

  // ---------------------------------------------------------------------
  // Collecting names
  // ---------------------------------------------------------------------

  /** `evidence['components']` when the key is there, else nothing. */
  function FrameComponents(e: FrameEvidence): seq<Component>
  {
    if e.components.Some? then e.components.value else []
  }

  /** `comp.get('name', '').lower()`: the key names are compared by. */
  function NameKey(c: Component): string
  {
    Lower(GetOr(c.name, ""))
  }

  function FrameNames(cs: seq<Component>): set<string>
  {
    if |cs| == 0 then {} else FrameNames(cs[..|cs| - 1]) + {NameKey(cs[|cs| - 1])}
  }

  function CollectedNames(ev: seq<FrameEvidence>): set<string>
  {
    if |ev| == 0 then {} else CollectedNames(ev[..|ev| - 1]) + FrameNames(FrameComponents(ev[|ev| - 1]))
  }

  /** `_collect_all_components`: the set of name keys over all frames. */
  method CollectAllComponents(ev: seq<FrameEvidence>) returns (names: set<string>)
    ensures names == CollectedNames(ev)
  {
    names := {};
    for i := 0 to |ev|
      invariant names == CollectedNames(ev[..i])
    {
      assert ev[..i + 1][..i] == ev[..i];
      if ev[i].components.Some? {
        var cs := ev[i].components.value;
        for j := 0 to |cs|
          invariant names == CollectedNames(ev[..i]) + FrameNames(cs[..j])
        {
          assert cs[..j + 1][..j] == cs[..j];
          names := names + {NameKey(cs[j])};
        }
        assert cs[..|cs|] == cs;
      }
    }
    assert ev[..|ev|] == ev;
  }

  // ---------------------------------------------------------------------
  // Votes
  // ---------------------------------------------------------------------

  function VoteOf(c: Component): Vote
  {
    Vote(GetOr(c.weightG, 0.0), GetOr(c.calories, 0.0), GetOr(c.proteinG, 0.0),
         GetOr(c.fatG, 0.0), GetOr(c.carbsG, 0.0), GetOr(c.confidence, 0.5))
  }

  function MatchingVotes(name: string, cs: seq<Component>): seq<Vote>
  {
    if |cs| == 0 then []
    else MatchingVotes(name, cs[..|cs| - 1])
         + (if NameKey(cs[|cs| - 1]) == name then [VoteOf(cs[|cs| - 1])] else [])
  }

  /** One vote per matching component, frame after frame. */
  function VoteValues(name: string, ev: seq<FrameEvidence>): seq<Vote>
  {
    if |ev| == 0 then []
    else VoteValues(name, ev[..|ev| - 1]) + MatchingVotes(name, FrameComponents(ev[|ev| - 1]))
  }

  /** `_get_votes_for_component`. */
  method GetVotesForComponent(name: string, ev: seq<FrameEvidence>) returns (votes: Votes)
    ensures votes.values == VoteValues(name, ev)
    ensures votes.positive == |votes.values| && votes.total == |ev|
  {
    votes := Votes(0, |ev|, []);
    for i := 0 to |ev|
      invariant votes.values == VoteValues(name, ev[..i])
      invariant votes.positive == |votes.values| && votes.total == |ev|
    {
      assert ev[..i + 1][..i] == ev[..i];
      if ev[i].components.Some? {
        var cs := ev[i].components.value;
        for j := 0 to |cs|
          invariant votes.values == VoteValues(name, ev[..i]) + MatchingVotes(name, cs[..j])
          invariant votes.positive == |votes.values| && votes.total == |ev|
        {
          assert cs[..j + 1][..j] == cs[..j];
          if NameKey(cs[j]) == name {
            votes := Votes(votes.positive + 1, votes.total, votes.values + [VoteOf(cs[j])]);
          }
        }
        assert cs[..|cs|] == cs;
      }
    }
    assert ev[..|ev|] == ev;
  }

  lemma {:induction false} FrameNamesIffVotes(name: string, cs: seq<Component>)
    ensures name in FrameNames(cs) <==> |MatchingVotes(name, cs)| > 0
    decreases |cs|
  {
    if |cs| > 0 {
      FrameNamesIffVotes(name, cs[..|cs| - 1]);
    }
  }

  /** A name is collected exactly when it gets at least one vote. */
  lemma {:induction false} CollectedIffVoted(name: string, ev: seq<FrameEvidence>)
    ensures name in CollectedNames(ev) <==> |VoteValues(name, ev)| > 0
    decreases |ev|
  {
    if |ev| > 0 {
      CollectedIffVoted(name, ev[..|ev| - 1]);
      FrameNamesIffVotes(name, FrameComponents(ev[|ev| - 1]));
    }
  }

  /** The frame lists `name` at most once. */
  predicate ListsAtMostOnce(name: string, cs: seq<Component>)
  {
    forall j, k :: 0 <= j < k < |cs| && NameKey(cs[j]) == name ==> NameKey(cs[k]) != name
  }

  lemma {:induction false} AtMostOneMatch(name: string, cs: seq<Component>)
    requires ListsAtMostOnce(name, cs)
    ensures |MatchingVotes(name, cs)| <= 1
    decreases |cs|
  {
    if |cs| > 0 {
      var n := |cs| - 1;
      AtMostOneMatch(name, cs[..n]);
      if NameKey(cs[n]) == name && |MatchingVotes(name, cs[..n])| > 0 {
        FrameNamesIffVotes(name, cs[..n]);
        FrameNamesHasWitness(name, cs[..n]);
        assert false;
      }
    }
  }

  lemma {:induction false} FrameNamesHasWitness(name: string, cs: seq<Component>)
    requires name in FrameNames(cs)
    ensures exists j :: 0 <= j < |cs| && NameKey(cs[j]) == name
    decreases |cs|
  {
    var n := |cs| - 1;
    if NameKey(cs[n]) != name {
      FrameNamesHasWitness(name, cs[..n]);
      var j :| 0 <= j < n && NameKey(cs[..n][j]) == name;
      assert NameKey(cs[j]) == name;
    }
  }

  /** When no frame lists a name twice, its votes never exceed the frame count. */
  lemma {:induction false} VotesAtMostFrames(name: string, ev: seq<FrameEvidence>)
    requires forall i :: 0 <= i < |ev| ==> ListsAtMostOnce(name, FrameComponents(ev[i]))
    ensures |VoteValues(name, ev)| <= |ev|
    decreases |ev|
  {
    if |ev| > 0 {
      var n := |ev| - 1;
      VotesAtMostFrames(name, ev[..n]);
      AtMostOneMatch(name, FrameComponents(ev[n]));
    }
  }

  /** A frame that lists a name twice casts two votes: two votes from one frame. */
  lemma DoubleListingVotesTwice(c: Component)
    ensures |VoteValues(NameKey(c), [FrameEvidence(Some([c, c]), None, None, None, None, None, false)])| == 2
  {
    var cs := [c, c];
    assert cs[..1] == [c];
    assert MatchingVotes(NameKey(c), cs[..1]) == [VoteOf(c)];
  }

  // ---------------------------------------------------------------------
  // Audio bonus and decision
  // ---------------------------------------------------------------------

  function SecondaryNames(items: seq<SecondaryItem>): seq<string>
  {
    if |items| == 0 then [] else [items[0].name] + SecondaryNames(items[1..])
  }

  /** Some entry of `names`, lower-cased, equals `key` exactly. */
  function AnyEquals(names: seq<string>, key: string): (b: bool)
    ensures b <==> exists i :: 0 <= i < |names| && Lower(names[i]) == key
  {
    if |names| == 0 then false
    else if Lower(names[0]) == key then true
    else
      var b := AnyEquals(names[1..], key);
      assert b ==> exists i :: 0 <= i < |names| && Lower(names[i]) == key by {
        if b {
          var i :| 0 <= i < |names[1..]| && Lower(names[1..][i]) == key;
          assert Lower(names[i + 1]) == key;
        }
      }
      b
  }

  /** `_mentioned_in_audio`: exact equality with the primary, a secondary or a mentioned name. */
  function MentionedInAudio(key: string, h: Hypothesis): bool
  {
    (h.primaryDish.Some? && Lower(h.primaryDish.value.name) == key)
    || AnyEquals(SecondaryNames(h.secondaryItems), key)
    || AnyEquals(h.mentionedItems, key)
  }

  function AudioBonus(key: string, h: Hypothesis): (bonus: real)
    ensures bonus == 0.3 || bonus == 0.0
    ensures bonus == 0.3 <==>
      (h.primaryDish.Some? && Lower(h.primaryDish.value.name) == key)
      || (exists i :: 0 <= i < |h.secondaryItems| && Lower(h.secondaryItems[i].name) == key)
      || (exists i :: 0 <= i < |h.mentionedItems| && Lower(h.mentionedItems[i]) == key)
  {
    SecondaryNamesAt(h.secondaryItems);
    if MentionedInAudio(key, h) then 0.3 else 0.0
  }

  lemma {:induction false} SecondaryNamesAt(items: seq<SecondaryItem>)
    ensures |SecondaryNames(items)| == |items|
    ensures forall i :: 0 <= i < |items| ==> SecondaryNames(items)[i] == items[i].name
    decreases |items|
  {
    if |items| > 0 {
      SecondaryNamesAt(items[1..]);
    }
  }

  /** Mentioning a longer word is not enough: equality, not containment, earns the bonus. */
  lemma SubstringEarnsNoBonus()
    ensures AudioBonus("рис", Hypothesis(None, [], ["рисовая каша"], None, [])) == 0.0
  {
    assert Lower("рисовая каша") != "рис" by {
      assert |Lower("рисовая каша")| == 12;
    }
  }

  function Ratio(votes: Votes): real
    requires votes.total > 0
  {
    votes.positive as real / votes.total as real
  }

  /** `_make_decision`: at least 0.6 is high, at least 0.4 medium, below that excluded. */
  function MakeDecision(votes: Votes, bonus: real): (d: Decision)
    ensures votes.total == 0 ==> d == Decision(false, NoTier)
    ensures votes.total > 0 ==> (d.keep <==> Ratio(votes) + bonus >= 0.4)
    ensures votes.total > 0 ==> (d.tier == High <==> Ratio(votes) + bonus >= 0.6)
    ensures votes.total > 0 ==> (d.tier == Medium <==> 0.4 <= Ratio(votes) + bonus < 0.6)
    ensures votes.total > 0 ==> (d.tier == Low <==> Ratio(votes) + bonus < 0.4)
  {
    if votes.total == 0 then Decision(false, NoTier)
    else
      var adjusted := Ratio(votes) + bonus;
      if adjusted >= 0.6 then Decision(true, High)
      else if adjusted >= 0.4 then Decision(true, Medium)
      else Decision(false, Low)
  }

  lemma RatioMonotone(p1: nat, p2: nat, t: nat)
    requires t > 0 && p1 <= p2
    ensures p1 as real / t as real <= p2 as real / t as real
  {
    var d := (p2 - p1) as real / t as real;
    assert d * t as real == (p2 - p1) as real;
    assert d >= 0.0;
    assert p2 as real / t as real == p1 as real / t as real + d;
  }

  /**
   * More votes or an audio bonus never drop a kept component, and never
   * lower a high tier.
   */
  lemma DecisionMonotone(v1: Votes, v2: Votes, b1: real, b2: real)
    requires v1.total == v2.total && v1.positive <= v2.positive && b1 <= b2
    ensures MakeDecision(v1, b1).keep ==> MakeDecision(v2, b2).keep
    ensures MakeDecision(v1, b1).tier == High ==> MakeDecision(v2, b2).tier == High
  {
    if v1.total > 0 {
      RatioMonotone(v1.positive, v2.positive, v1.total);
    }
  }

  // ---------------------------------------------------------------------
  // Averages
  // ---------------------------------------------------------------------

  function VoteField(v: Vote, f: Field): real
  {
    match f
    case WeightField => v.weightG
    case CaloriesField => v.calories
    case ProteinField => v.proteinG
    case FatField => v.fatG
    case CarbsField => v.carbsG
  }

  function Confidences(vs: seq<Vote>): (cs: seq<real>)
    ensures |cs| == |vs| && forall i :: 0 <= i < |vs| ==> cs[i] == vs[i].confidence
  {
    seq(|vs|, i requires 0 <= i < |vs| => vs[i].confidence)
  }

  function FieldValues(vs: seq<Vote>, f: Field): (xs: seq<real>)
    ensures |xs| == |vs| && forall i :: 0 <= i < |vs| ==> xs[i] == VoteField(vs[i], f)
  {
    seq(|vs|, i requires 0 <= i < |vs| => VoteField(vs[i], f))
  }

  function ConfidenceSum(vs: seq<Vote>): real
  {
    Sum(Confidences(vs))
  }

  /** `sum(v[field] * v['confidence'] for v in values)`. */
  function WeightedSum(vs: seq<Vote>, f: Field): real
  {
    Dot(FieldValues(vs, f), Confidences(vs))
  }

  function WeightedMean(vs: seq<Vote>, f: Field): real
    requires ConfidenceSum(vs) != 0.0
  {
    WeightedSum(vs, f) / ConfidenceSum(vs)
  }

  /** A confidence-weighted mean lies between the smallest and largest vote. */
  lemma WeightedMeanBetween(vs: seq<Vote>, f: Field, lo: real, hi: real)
    requires forall i :: 0 <= i < |vs| ==> vs[i].confidence >= 0.0 && lo <= VoteField(vs[i], f) <= hi
    requires ConfidenceSum(vs) > 0.0
    ensures lo <= WeightedMean(vs, f) <= hi
  {
    var xs, cs := FieldValues(vs, f), Confidences(vs);
    DotAbove(xs, cs, lo);
    DotBelow(xs, cs, hi);
    MeanBetween(Dot(xs, cs), Sum(cs), lo, hi);
  }

  function MeanConfidence(vs: seq<Vote>): real
    requires |vs| > 0
  {
    ConfidenceSum(vs) / |vs| as real
  }

  function Multiplier(tier: Tier): (m: real)
    ensures 0.5 <= m <= 1.0
  {
    match tier
    case High => 1.0
    case Medium => 0.8
    case Low => 0.6
    case NoTier => 0.5
  }

  /**
   * `_calculate_averages`. `None` is the source's ZeroDivisionError when
   * the confidences of the votes sum to zero.
   */
  function CalculateAverages(key: string, votes: Votes, tier: Tier): (r: Option<Component>)
    ensures r.None? <==> |votes.values| > 0 && ConfidenceSum(votes.values) == 0.0
    ensures |votes.values| == 0 ==> r == Some(Component(Some(key), Some(0.0), Some(0.0), Some(0.0),
                                                         Some(0.0), Some(0.0), Some(0.5)))
    ensures r.Some? && |votes.values| > 0 ==>
      && r.value.name == Some(Title(key))
      && r.value.weightG == Some(Trunc(WeightedMean(votes.values, WeightField)) as real)
      && r.value.calories == Some(Trunc(WeightedMean(votes.values, CaloriesField)) as real)
      && r.value.proteinG == Some(Round1(WeightedMean(votes.values, ProteinField)))
      && r.value.fatG == Some(Round1(WeightedMean(votes.values, FatField)))
      && r.value.carbsG == Some(Round1(WeightedMean(votes.values, CarbsField)))
      && r.value.confidence == Some(Round2(MeanConfidence(votes.values) * Multiplier(tier)))
  {
    var vs := votes.values;
    if |vs| == 0 then
      Some(Component(Some(key), Some(0.0), Some(0.0), Some(0.0), Some(0.0), Some(0.0), Some(0.5)))
    else if ConfidenceSum(vs) == 0.0 then None
    else
      Some(Component(
        Some(Title(key)),
        Some(Trunc(WeightedMean(vs, WeightField)) as real),
        Some(Trunc(WeightedMean(vs, CaloriesField)) as real),
        Some(Round1(WeightedMean(vs, ProteinField))),
        Some(Round1(WeightedMean(vs, FatField))),
        Some(Round1(WeightedMean(vs, CarbsField))),
        Some(Round2(MeanConfidence(vs) * Multiplier(tier)))))
  }

  /** Frames that agree on a weight give exactly that weight (for whole, non-negative grams). */
  lemma UnanimousWeightIsKept(key: string, votes: Votes, tier: Tier, w: nat)
    requires |votes.values| > 0 && ConfidenceSum(votes.values) > 0.0
    requires forall i :: 0 <= i < |votes.values| ==>
      votes.values[i].confidence >= 0.0 && votes.values[i].weightG == w as real
    ensures CalculateAverages(key, votes, tier).Some?
    ensures CalculateAverages(key, votes, tier).value.weightG == Some(w as real)
  {
    WeightedMeanBetween(votes.values, WeightField, w as real, w as real);
  }

  // ---------------------------------------------------------------------
  // Final analysis
  // ---------------------------------------------------------------------

  /**
   * The dish name: the first component's name, followed by " с " and the
   * lower-cased second name when there are two or more components;
   * "Неизвестное блюдо" without components.
   */
  function DishName(cs: seq<Component>): (r: string)
    ensures |cs| == 0 ==> r == "Неизвестное блюдо"
    ensures |cs| > 0 ==> GetOr(cs[0].name, "") <= r
    ensures |cs| == 1 ==> r == GetOr(cs[0].name, "")
    ensures |cs| > 1 ==> r[|GetOr(cs[0].name, "")|..] == " с " + Lower(GetOr(cs[1].name, ""))
  {
    if |cs| == 0 then "Неизвестное блюдо"
    else if |cs| == 1 then GetOr(cs[0].name, "")
    else GetOr(cs[0].name, "") + " с " + Lower(GetOr(cs[1].name, ""))
  }

  function HealthScore(protein: real, fat: real, carbs: real): (score: int)
    ensures 5 <= score <= 8
    ensures score == 5 + (if protein > 20.0 then 1 else 0) + (if fat < 20.0 then 1 else 0)
                       + (if carbs < 50.0 then 1 else 0)
  {
    var s := 5 + (if protein > 20.0 then 1 else 0) + (if fat < 20.0 then 1 else 0)
               + (if carbs < 50.0 then 1 else 0);
    if s < 10 then s else 10
  }

  const HighCaloriesWarning := "Высокая калорийность"
  const ManyCarbsWarning := "Много углеводов"
  const LowProteinWarning := "Мало белка"

  function VideoWarnings(calories: real, carbs: real, protein: real): (ws: seq<string>)
    ensures HighCaloriesWarning in ws <==> calories > 800.0
    ensures ManyCarbsWarning in ws <==> carbs > 100.0
    ensures LowProteinWarning in ws <==> protein < 15.0
    ensures |ws| <= 3
  {
    (if calories > 800.0 then [HighCaloriesWarning] else [])
    + (if carbs > 100.0 then [ManyCarbsWarning] else [])
    + (if protein < 15.0 then [LowProteinWarning] else [])
  }

  /** `_build_final_analysis`. */
  function BuildFinalAnalysis(cs: seq<Component>, audio: AudioHypothesis): (a: Analysis)
    ensures a.components == Some(cs)
    ensures a.weightGrams == Some(Total(cs, WeightField))
    ensures a.caloriesTotal == Some(Total(cs, CaloriesField))
    ensures a.caloriesPer100g == Some(
      if Total(cs, WeightField) > 0.0
      then Trunc(Total(cs, CaloriesField) / Total(cs, WeightField) * 100.0) as real else 0.0)
    ensures a.proteinG == Some(Round1(Total(cs, ProteinField)))
    ensures a.fatG == Some(Round1(Total(cs, FatField)))
    ensures a.carbsG == Some(Round1(Total(cs, CarbsField)))
    ensures a.dishName == Some(DishName(cs))
    ensures a.healthScore == Some(HealthScore(Total(cs, ProteinField), Total(cs, FatField), Total(cs, CarbsField)) as real)
    ensures a.healthScore.Some? && 5.0 <= a.healthScore.value <= 8.0
    ensures a.warnings == Some(VideoWarnings(Total(cs, CaloriesField), Total(cs, CarbsField),
                                             Total(cs, ProteinField)))
    ensures a.source == Some("video_note") && a.audioTranscription == Some(audio.transcription)
    ensures a.transcriptionUsed == Some(audio.transcription != "")
    ensures a.aggregationMetadata.None?
  {
    var weight := Total(cs, WeightField);
    var calories := Total(cs, CaloriesField);
    var protein := Total(cs, ProteinField);
    var fat := Total(cs, FatField);
    var carbs := Total(cs, CarbsField);
    NoKeys.(
      dishName := Some(DishName(cs)),
      components := Some(cs),
      weightGrams := Some(weight),
      caloriesTotal := Some(calories),
      caloriesPer100g := Some(if weight > 0.0 then Trunc(calories / weight * 100.0) as real else 0.0),
      proteinG := Some(Round1(protein)),
      fatG := Some(Round1(fat)),
      carbsG := Some(Round1(carbs)),
      healthScore := Some(HealthScore(protein, fat, carbs) as real),
      warnings := Some(VideoWarnings(calories, carbs, protein)),
      source := Some("video_note"),
      audioTranscription := Some(audio.transcription),
      transcriptionUsed := Some(audio.transcription != ""))
  }

  function ActualDishes(ev: seq<FrameEvidence>): set<string>
  {
    if |ev| == 0 then {}
    else
      var e := ev[|ev| - 1];
      ActualDishes(ev[..|ev| - 1]) + (if e.actualDish.Some? then {e.actualDish.value} else {})
  }

  /** `len(_find_conflicts(...))`: one conflict when frames name different dishes. */
  function ConflictCount(ev: seq<FrameEvidence>): nat
  {
    if |ActualDishes(ev)| > 1 then 1 else 0
  }

  lemma {:induction false} ActualDishesMembers(ev: seq<FrameEvidence>, d: string)
    ensures d in ActualDishes(ev) <==> exists i :: 0 <= i < |ev| && ev[i].actualDish == Some(d)
    decreases |ev|
  {
    if |ev| > 0 {
      var n := |ev| - 1;
      ActualDishesMembers(ev[..n], d);
      if d in ActualDishes(ev[..n]) {
        var i :| 0 <= i < n && ev[..n][i].actualDish == Some(d);
        assert ev[i].actualDish == Some(d);
      }
      if exists i :: 0 <= i < |ev| && ev[i].actualDish == Some(d) {
        var i :| 0 <= i < |ev| && ev[i].actualDish == Some(d);
        if i < n {
          assert ev[..n][i].actualDish == Some(d);
        }
      }
    }
  }

  /** A conflict is counted exactly when two frames name different dishes. */
  lemma ConflictIffDisagreement(ev: seq<FrameEvidence>)
    ensures ConflictCount(ev) == 1 <==>
      exists i, j :: 0 <= i < |ev| && 0 <= j < |ev| && ev[i].actualDish.Some? && ev[j].actualDish.Some?
                     && ev[i].actualDish.value != ev[j].actualDish.value
  {
    var s := ActualDishes(ev);
    if |s| > 1 {
      var x :| x in s;
      assert |s - {x}| == |s| - 1;
      var y :| y in s - {x};
      ActualDishesMembers(ev, x);
      ActualDishesMembers(ev, y);
    }
    if exists i, j :: 0 <= i < |ev| && 0 <= j < |ev| && ev[i].actualDish.Some? && ev[j].actualDish.Some?
                      && ev[i].actualDish.value != ev[j].actualDish.value {
      var i, j :| 0 <= i < |ev| && 0 <= j < |ev| && ev[i].actualDish.Some? && ev[j].actualDish.Some?
                  && ev[i].actualDish.value != ev[j].actualDish.value;
      ActualDishesMembers(ev, ev[i].actualDish.value);
      ActualDishesMembers(ev, ev[j].actualDish.value);
      var pair := {ev[i].actualDish.value, ev[j].actualDish.value};
      assert pair <= s;
      assert |pair| == 2;
      SubsetCardinality(pair, s);
    }
  }

  lemma {:induction false} SubsetCardinality(a: set<string>, b: set<string>)
    requires a <= b
    ensures |a| <= |b|
    decreases |a|
  {
    if a != {} {
      var x :| x in a;
      SubsetCardinality(a - {x}, b - {x});
    }
  }

  /** `_calculate_overall_confidence`. */
  function OverallConfidence(a: Analysis): real
  {
    if a.components.None? || |a.components.value| == 0 then 0.0
    else
      var cs := a.components.value;
      var mean := ComponentConfidenceSum(cs) / |cs| as real;
      var hasWarnings := a.warnings.Some? && |a.warnings.value| > 0;
      Round2(if hasWarnings then mean * 0.9 else mean)
  }

  function ComponentConfidenceSum(cs: seq<Component>): real
  {
    if |cs| == 0 then 0.0 else ComponentConfidenceSum(cs[..|cs| - 1]) + GetOr(cs[|cs| - 1].confidence, 0.5)
  }

  lemma {:induction false} ConfidenceSumBounds(cs: seq<Component>)
    requires forall i :: 0 <= i < |cs| ==> 0.0 <= GetOr(cs[i].confidence, 0.5) <= 1.0
    ensures 0.0 <= ComponentConfidenceSum(cs) <= |cs| as real
    decreases |cs|
  {
    if |cs| > 0 {
      ConfidenceSumBounds(cs[..|cs| - 1]);
    }
  }

  lemma UnitMean(total: real, n: real)
    requires n > 0.0 && 0.0 <= total <= n
    ensures 0.0 <= total / n <= 1.0
  {
    var m := total / n;
    assert m * n == total;
  }

  /** With component confidences in [0, 1], so is the overall confidence. */
  lemma OverallConfidenceInUnitRange(a: Analysis)
    requires a.components.Some?
    requires forall i :: 0 <= i < |a.components.value| ==>
      0.0 <= GetOr(a.components.value[i].confidence, 0.5) <= 1.0
    ensures 0.0 <= OverallConfidence(a) <= 1.0
  {
    var cs := a.components.value;
    if |cs| > 0 {
      ConfidenceSumBounds(cs);
      var mean := ComponentConfidenceSum(cs) / |cs| as real;
      UnitMean(ComponentConfidenceSum(cs), |cs| as real);
      var x := if a.warnings.Some? && |a.warnings.value| > 0 then mean * 0.9 else mean;
      var k := RoundHalfEven(x * 100.0);
      assert -1 < k < 101;
    }
  }

  /** `_empty_analysis`. */
  function EmptyAnalysis(): (a: Analysis)
    ensures a.components == Some([]) && a.weightGrams == Some(0.0) && a.caloriesTotal == Some(0.0)
    ensures a.healthScore == Some(0.0)
    ensures a.warnings.Some? && |a.warnings.value| == 1
    ensures a.transcriptionUsed == Some(false) && a.source == Some("video_note")
  {
    NoKeys.(
      dishName := Some("Не удалось распознать"),
      components := Some([]),
      weightGrams := Some(0.0),
      caloriesTotal := Some(0.0),
      caloriesPer100g := Some(0.0),
      proteinG := Some(0.0),
      fatG := Some(0.0),
      carbsG := Some(0.0),
      healthScore := Some(0.0),
      warnings := Some(["Не удалось проанализировать видео"]),
      source := Some("video_note"),
      audioTranscription := Some(""),
      transcriptionUsed := Some(false))
  }

  // ---------------------------------------------------------------------
  // aggregate
  // ---------------------------------------------------------------------

  /** The fate of one collected name: vote, bonus, decision, averages. */
  function Judge(key: string, audio: AudioHypothesis, ev: seq<FrameEvidence>): Outcome
  {
    var votes := Votes(|VoteValues(key, ev)|, |ev|, VoteValues(key, ev));
    var d := MakeDecision(votes, AudioBonus(key, audio.hypothesis));
    if !d.keep then Excluded
    else match CalculateAverages(key, votes, d.tier)
      case None => DivisionByZero
      case Some(c) => Included(c)
  }

  /** The fate of every name of `order`, in that order. */
  function Outcomes(order: seq<string>, audio: AudioHypothesis, ev: seq<FrameEvidence>): (os: seq<Outcome>)
    ensures |os| == |order|
    ensures forall i :: 0 <= i < |order| ==> os[i] == Judge(order[i], audio, ev)
  {
    seq(|order|, i requires 0 <= i < |order| => Judge(order[i], audio, ev))
  }

  /** The components kept along a run of outcomes; `None` once a division by zero is hit. */
  function Keep(os: seq<Outcome>): Option<seq<Component>>
  {
    if |os| == 0 then Some([])
    else match Keep(os[..|os| - 1])
      case None => None
      case Some(cs) =>
        match os[|os| - 1]
        case Excluded => Some(cs)
        case DivisionByZero => None
        case Included(c) => Some(cs + [c])
  }

  function KeptComponents(order: seq<string>, audio: AudioHypothesis, ev: seq<FrameEvidence>)
    : Option<seq<Component>>
  {
    Keep(Outcomes(order, audio, ev))
  }

  ghost predicate Lists(order: seq<string>, names: set<string>)
  {
    (forall i, j :: 0 <= i < j < |order| ==> order[i] != order[j])
    && (forall x :: x in order <==> x in names)
  }

  function WithMetadata(a: Analysis, audio: AudioHypothesis, ev: seq<FrameEvidence>): Analysis
  {
    a.(aggregationMetadata := Some(AggregationMetadata(
      |ev|, ConflictCount(ev), audio.transcription != "", OverallConfidence(a))))
  }

  /** What `aggregate` returns; `None` stands for the ZeroDivisionError it raises. */
  function AggregateResult(audio: AudioHypothesis, ev: seq<FrameEvidence>, order: seq<string>)
    : Option<Analysis>
  {
    if |ev| == 0 then Some(EmptyAnalysis())
    else match KeptComponents(order, audio, ev)
      case None => None
      case Some(cs) => Some(WithMetadata(BuildFinalAnalysis(cs, audio), audio, ev))
  }

  lemma {:induction false} FailureIsFinal(os: seq<Outcome>, i: nat)
    requires i <= |os| && Keep(os[..i]).None?
    ensures Keep(os).None?
    decreases |os| - i
  {
    if i < |os| {
      assert os[..i + 1][..i] == os[..i];
      FailureIsFinal(os, i + 1);
    } else {
      assert os[..i] == os;
    }
  }

  /** The body of the loop of `aggregate` for one name. */
  method JudgeComponent(key: string, audio: AudioHypothesis, ev: seq<FrameEvidence>) returns (o: Outcome)
    ensures o == Judge(key, audio, ev)
  {
    var votes := GetVotesForComponent(key, ev);
    var bonus := 0.0;
    if MentionedInAudio(key, audio.hypothesis) {
      bonus := 0.3;
    }
    var decision := MakeDecision(votes, bonus);
    o := Excluded;
    if decision.keep {
      var averaged := CalculateAverages(key, votes, decision.tier);
      o := if averaged.None? then DivisionByZero else Included(averaged.value);
    }
  }

  lemma KeepStep(os: seq<Outcome>, i: nat)
    requires i < |os|
    ensures Keep(os[..i + 1]) ==
      match Keep(os[..i])
      case None => None
      case Some(cs) =>
        match os[i]
        case Excluded => Some(cs)
        case DivisionByZero => None
        case Included(c) => Some(cs + [c])
  {
    assert os[..i + 1][..i] == os[..i];
  }

  /** `aggregate`: vote on every collected name in the set's iteration order. */
  method Aggregate(audio: AudioHypothesis, ev: seq<FrameEvidence>, order: seq<string>)
    returns (r: Option<Analysis>)
    requires Lists(order, CollectedNames(ev))
    ensures r == AggregateResult(audio, ev, order)
  {
    if |ev| == 0 {
      return Some(EmptyAnalysis());
    }
    ghost var os := Outcomes(order, audio, ev);
    var kept: seq<Component> := [];
    for i := 0 to |order|
      invariant Keep(os[..i]) == Some(kept)
    {
      var o := JudgeComponent(order[i], audio, ev);
      KeepStep(os, i);
      match o
      case DivisionByZero =>
        FailureIsFinal(os, i + 1);
        return None;
      case Included(c) =>
        kept := kept + [c];
      case Excluded =>
    }
    assert os[..|order|] == os;
    var a := BuildFinalAnalysis(kept, audio);
    r := Some(WithMetadata(a, audio, ev));
  }

  /** No frames: the fixed empty analysis, whatever the audio said. */
  lemma EmptyEvidenceGivesEmptyAnalysis(audio: AudioHypothesis)
    ensures AggregateResult(audio, [], []) == Some(EmptyAnalysis())
  {
  }

  lemma {:induction false} KeepMembers(os: seq<Outcome>, c: Component)
    requires Keep(os).Some?
    ensures c in Keep(os).value <==> exists i :: 0 <= i < |os| && os[i] == Included(c)
    decreases |os|
  {
    if |os| > 0 {
      var n := |os| - 1;
      var prefix := os[..n];
      KeepMembers(prefix, c);
      if exists i :: 0 <= i < n && prefix[i] == Included(c) {
        var i :| 0 <= i < n && prefix[i] == Included(c);
        assert os[i] == Included(c);
      }
      if exists i :: 0 <= i < |os| && os[i] == Included(c) {
        var i :| 0 <= i < |os| && os[i] == Included(c);
        if i < n {
          assert prefix[i] == Included(c);
        }
      }
    }
  }

  /**
   * The kept components are exactly the averaged components of the names
   * whose vote kept them, whatever the iteration order.
   */
  lemma KeptAreJudgedIncluded(order: seq<string>, audio: AudioHypothesis, ev: seq<FrameEvidence>,
                              c: Component)
    requires KeptComponents(order, audio, ev).Some?
    ensures c in KeptComponents(order, audio, ev).value <==>
      exists i :: 0 <= i < |order| && Judge(order[i], audio, ev) == Included(c)
  {
    KeepMembers(Outcomes(order, audio, ev), c);
  }

  /** A successful aggregate's totals and score follow from its kept components. */
  lemma AggregateTotals(audio: AudioHypothesis, ev: seq<FrameEvidence>, order: seq<string>)
    requires |ev| > 0 && AggregateResult(audio, ev, order).Some?
    ensures var a := AggregateResult(audio, ev, order).value;
      var cs := KeptComponents(order, audio, ev).value;
      && a.components == Some(cs)
      && a.weightGrams == Some(Total(cs, WeightField))
      && a.caloriesTotal == Some(Total(cs, CaloriesField))
      && a.proteinG == Some(Round1(Total(cs, ProteinField)))
      && a.fatG == Some(Round1(Total(cs, FatField)))
      && a.carbsG == Some(Round1(Total(cs, CarbsField)))
      && a.dishName == Some(DishName(cs))
      && a.healthScore.Some? && 5.0 <= a.healthScore.value <= 8.0
      && a.aggregationMetadata.Some?
      && a.aggregationMetadata.value.framesAnalyzed == |ev|
      && (a.aggregationMetadata.value.conflictsResolved == 1 <==>
          exists i, j :: 0 <= i < |ev| && 0 <= j < |ev| && ev[i].actualDish.Some?
                         && ev[j].actualDish.Some? && ev[i].actualDish.value != ev[j].actualDish.value)
      && a.aggregationMetadata.value.audioHypothesisUsed == (audio.transcription != "")
      && a.aggregationMetadata.value.finalConfidence == OverallConfidence(BuildFinalAnalysis(cs, audio))
      && ((forall i :: 0 <= i < |cs| ==> 0.0 <= GetOr(cs[i].confidence, 0.5) <= 1.0) ==>
            0.0 <= a.aggregationMetadata.value.finalConfidence <= 1.0)
  {
    ConflictIffDisagreement(ev);
    var cs := KeptComponents(order, audio, ev).value;
    if forall i :: 0 <= i < |cs| ==> 0.0 <= GetOr(cs[i].confidence, 0.5) <= 1.0 {
      OverallConfidenceInUnitRange(BuildFinalAnalysis(cs, audio));
    }
  }

  /** Components after the second do not change the dish name. */
  lemma DishNameUsesFirstTwo(cs: seq<Component>, more: seq<Component>)
    requires |cs| >= 2
    ensures DishName(cs + more) == DishName(cs)
  {
    assert (cs + more)[0] == cs[0] && (cs + more)[1] == cs[1];
  }
}
