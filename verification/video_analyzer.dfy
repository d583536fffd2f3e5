/**
 * Asking the vision model about each key frame
 * (modules/video_analysis/video_analyzer.py).
 *
 * One system prompt is built from what the speaker said; every frame is
 * sent with it, the reply's JSON object is extracted, tagged with the
 * frame's position, and frames whose request or parse failed are dropped.
 * The HTTP request is the parameter `callModel` (`None` for a non-200
 * status, a reply without choices, or any exception) and the JSON parser
 * the parameter `parse`.
 */
module VideoAnalyzer {
  import opened Common
  import opened Food
  import opened AudioContextParser
  import opened JsonResponse

  /** `"\n".join(lines)`. */
  function JoinLines(lines: seq<string>): string
  {
    if |lines| == 0 then ""
    else if |lines| == 1 then lines[0]
    else lines[0] + "\n" + JoinLines(lines[1..])
  }

  const GenericPrompt := JoinLines([
    "ТЫ — ЭКСПЕРТНЫЙ АНАЛИЗАТОР ЕДЫ.",
    "",
    "ЗАДАЧА: Проанализируй фото еды максимально точно.",
    "",
    "ТРЕБОВАНИЯ:",
    "1. Определи ВСЕ компоненты на фото",
    "2. Оцени вес КАЖДОГО компонента",
    "3. Рассчитай калории, белки, жиры, углеводы",
    "4. Используй точные названия блюд",
    "",
    "Верни результат в JSON формате."])

  const TaskInstructions := JoinLines([
    "",
    "ТВОЯ ЗАДАЧА:",
    "1. ПОДТВЕРДИТЬ или ОПРОВЕРГНУТЬ гипотезу по фото",
    "2. Если подтверждается — УТОЧНИТЬ детали (точный вес, БЖУ)",
    "3. Если нет — сказать, что на фото НА САМОМ ДЕЛЕ",
    "4. Найти ВСЁ, что есть на фото, даже если не упомянуто",
    "",
    "БУДЬ КРИТИЧЕН! Если видишь \"пюре\", но оно жидкое как суп — укажи это.",
    "Если видишь \"салат\", но пользователь сказал \"торт\" — исправь ошибку.",
    "",
    "ФОРМАТ ОТВЕТА (строго JSON):",
    "{",
    "  \"hypothesis_confirmed\": true/false,",
    "  \"actual_dish\": \"название того, что на самом деле на фото\",",
    "  \"components\": [",
    "    {",
    "      \"name\": \"компонент\",",
    "      \"weight_g\": 200,",
    "      \"calories\": 150,",
    "      \"protein_g\": 10,",
    "      \"fat_g\": 5,",
    "      \"carbs_g\": 20,",
    "      \"confidence\": 0.85,",
    "      \"matches_hypothesis\": true/false",
    "    }",
    "  ],",
    "  \"discrepancies\": [\"что не совпало с гипотезой\"],",
    "  \"additional_items\": [\"что нашли, но не было упомянуто\"]",
    "}"])

  const HypothesisIntro := "\nИЗ ЭТОГО МЫ ИЗВЛЕКЛИ ГИПОТЕЗУ:\n"

  /** The opening of the hypothesis prompt, quoting the transcription. */
  function Header(transcription: string): string
  {
    HeaderOpening + transcription + "\"\n"
  }

  const HeaderOpening := "ТЫ — ПОМОЩНИК, ПРОВЕРЯЮЩИЙ ГИПОТЕЗУ ПОЛЬЗОВАТЕЛЯ.\n\nПОЛЬЗОВАТЕЛЬ СКАЗАЛ: \""

  function DishLine(name: string): string
  {
    "Основное блюдо: " + name + "\n"
  }

  function WeightLine(g: WeightGuess): string
  {
    "Примерный вес: " + NatToString(g.value) + g.unit + "\n"
  }

  /** `", ".join(item['name'] for item in items)`. */
  function JoinNames(items: seq<SecondaryItem>): string
  {
    if |items| == 0 then ""
    else if |items| == 1 then items[0].name
    else items[0].name + ", " + JoinNames(items[1..])
  }

  function SecondaryLine(items: seq<SecondaryItem>): string
  {
    "Дополнительно: " + JoinNames(items) + "\n"
  }

  /** The hypothesis lines, present only when there is a primary dish. */
  function HypothesisLines(h: Hypothesis): seq<string>
  {
    match h.primaryDish
    case None => []
    case Some(dish) =>
      [HypothesisIntro, DishLine(dish.name)]
      + (if dish.weightGuess.Some? then [WeightLine(dish.weightGuess.value)] else [])
      + (if |h.secondaryItems| > 0 then [SecondaryLine(h.secondaryItems)] else [])
  }

  /** The pieces `_build_system_prompt` puts together, in order. */
  function PromptParts(audio: AudioHypothesis): seq<string>
  {
    if audio.hypothesis.primaryDish.None? && audio.transcription == "" then [GenericPrompt]
    else [Header(audio.transcription)] + HypothesisLines(audio.hypothesis) + [TaskInstructions]
  }

  function Concat(parts: seq<string>): string
  {
    if |parts| == 0 then "" else parts[0] + Concat(parts[1..])
  }

  function SystemPrompt(audio: AudioHypothesis): string
  {
    Concat(PromptParts(audio))
  }

  /** `_build_system_prompt`: the generic prompt, or the hypothesis prompt grown line by line. */
  method BuildSystemPrompt(audio: AudioHypothesis) returns (prompt: string)
    ensures prompt == SystemPrompt(audio)
  {
    var transcription := audio.transcription;
    var h := audio.hypothesis;
    if h.primaryDish.None? && transcription == "" {
      ConcatSingle(GenericPrompt);
      return GenericPrompt;
    }
    prompt := Header(transcription);
    prompt := AppendHypothesisLines(prompt, h);
    prompt := prompt + TaskInstructions;
    HypothesisPromptParts(Header(transcription), HypothesisLines(h), TaskInstructions);
  }

  /** The lines about the dish, appended when there is a primary dish. */
  method AppendHypothesisLines(start: string, h: Hypothesis) returns (prompt: string)
    ensures prompt == start + Concat(HypothesisLines(h))
  {
    prompt := start;
    ghost var parts: seq<string> := [];
    ConcatSingle(start);
    if h.primaryDish.Some? {
      var dish := h.primaryDish.value;
      prompt, parts := Grow(prompt, parts, start, HypothesisIntro);
      prompt, parts := Grow(prompt, parts, start, DishLine(dish.name));
      if dish.weightGuess.Some? {
        prompt, parts := Grow(prompt, parts, start, WeightLine(dish.weightGuess.value));
      }
      if |h.secondaryItems| > 0 {
        prompt, parts := Grow(prompt, parts, start, SecondaryLine(h.secondaryItems));
      }
    }
    assert parts == HypothesisLines(h);
  }

  /** `prompt += next`, keeping track of the lines added so far. */
  method Grow(prompt: string, ghost parts: seq<string>, ghost start: string, next: string)
    returns (prompt': string, ghost parts': seq<string>)
    requires prompt == start + Concat(parts)
    ensures parts' == parts + [next] && prompt' == start + Concat(parts')
  {
    ConcatAppend(parts, next);
    prompt', parts' := prompt + next, parts + [next];
  }

  lemma ConcatSingle(x: string)
    ensures Concat([x]) == x
  {
    assert [x][1..] == [];
  }

  lemma HypothesisPromptParts(header: string, lines: seq<string>, closing: string)
    ensures Concat([header] + lines + [closing]) == header + Concat(lines) + closing
  {
    assert ([header] + lines + [closing])[1..] == lines + [closing];
    ConcatAppend(lines, closing);
  }

  lemma {:induction false} ConcatAppend(parts: seq<string>, last: string)
    ensures Concat(parts + [last]) == Concat(parts) + last
    decreases |parts|
  {
    if |parts| > 0 {
      assert (parts + [last])[1..] == parts[1..] + [last];
      ConcatAppend(parts[1..], last);
    }
  }

  // ---------------------------------------------------------------------
  // What the prompt says
  // ---------------------------------------------------------------------

  /** The generic prompt is used exactly when the speaker gave neither a dish nor any words. */
  lemma GenericPromptIff(audio: AudioHypothesis)
    ensures PromptParts(audio) == [GenericPrompt] <==>
      audio.hypothesis.primaryDish.None? && audio.transcription == ""
  {
  }

  /** Otherwise the prompt opens with the header quoting the transcription word for word. */
  lemma HypothesisPromptQuotesTranscription(audio: AudioHypothesis)
    requires audio.hypothesis.primaryDish.Some? || audio.transcription != ""
    ensures Header(audio.transcription) <= SystemPrompt(audio)
    ensures Contains(SystemPrompt(audio), audio.transcription)
  {
    assert PromptParts(audio)[0] == Header(audio.transcription);
    var rest := Concat(PromptParts(audio)[1..]);
    assert SystemPrompt(audio) == Header(audio.transcription) + rest;
    HeaderQuotes(audio.transcription, rest);
  }

  lemma HeaderQuotes(t: string, rest: string)
    ensures Contains(Header(t) + rest, t)
  {
    ContainsMiddle(HeaderOpening, t, "\"\n" + rest);
    assert HeaderOpening + t + ("\"\n" + rest) == Header(t) + rest;
  }

  predicate IsWeightLine(line: string)
  {
    "Примерный вес: " <= line
  }

  predicate IsSecondaryLine(line: string)
  {
    "Дополнительно: " <= line
  }

  /**
   * Between the header and the instructions: the dish lines when there is
   * a primary dish, a weight line exactly when that dish carries a weight
   * guess, and a line of further items exactly when there is a primary dish
   * and the list of secondary items is not empty.
   */
  lemma HypothesisLinesShape(h: Hypothesis)
    ensures h.primaryDish.None? <==> HypothesisLines(h) == []
    ensures (exists k :: 0 <= k < |HypothesisLines(h)| && IsWeightLine(HypothesisLines(h)[k])) <==>
      h.primaryDish.Some? && h.primaryDish.value.weightGuess.Some?
    ensures (exists k :: 0 <= k < |HypothesisLines(h)| && IsSecondaryLine(HypothesisLines(h)[k])) <==>
      h.primaryDish.Some? && |h.secondaryItems| > 0
  {
    var lines := HypothesisLines(h);
    if h.primaryDish.Some? {
      var dish := h.primaryDish.value;
      assert !IsWeightLine(HypothesisIntro) && !IsSecondaryLine(HypothesisIntro) by {
        assert HypothesisIntro[0] == '\n';
      }
      assert !IsWeightLine(DishLine(dish.name)) && !IsSecondaryLine(DishLine(dish.name)) by {
        assert DishLine(dish.name)[0] == 'О';
      }
      if dish.weightGuess.Some? {
        var w := WeightLine(dish.weightGuess.value);
        assert IsWeightLine(w) && !IsSecondaryLine(w) by {
          assert w[0] == 'П';
          assert w[..|"Примерный вес: "|] == "Примерный вес: ";
        }
        assert lines[2] == w;
      }
      if |h.secondaryItems| > 0 {
        var sl := SecondaryLine(h.secondaryItems);
        assert IsSecondaryLine(sl) && !IsWeightLine(sl) by {
          assert sl[0] == 'Д';
          assert sl[..|"Дополнительно: "|] == "Дополнительно: ";
        }
        assert lines[|lines| - 1] == sl;
      }
    }
  }

  /** The hypothesis prompt is the header, the hypothesis lines and the instructions, in that order. */
  lemma HypothesisPromptLayout(audio: AudioHypothesis)
    requires audio.hypothesis.primaryDish.Some? || audio.transcription != ""
    ensures PromptParts(audio) ==
      [Header(audio.transcription)] + HypothesisLines(audio.hypothesis) + [TaskInstructions]
  {
  }

  // ---------------------------------------------------------------------
  // analyze_frames
  // ---------------------------------------------------------------------

  /** A parsed reply is truthy when it has at least one key. */
  predicate HasKeys(e: FrameEvidence)
  {
    e.components.Some? || e.actualDish.Some? || e.hypothesisConfirmed.Some? || e.discrepancies.Some?
    || e.frameIndex.Some? || e.frameTotal.Some? || e.otherKeys
  }

  /**
   * `_analyze_single_frame`: the reply's JSON object, tagged with the
   * frame's position and the frame count when it is not empty.
   */
  function AnalyzeSingleFrame<F>(frame: F, prompt: string, index: nat, total: nat,
                                 callModel: (F, string, nat, nat) -> Option<string>,
                                 parse: string -> Option<FrameEvidence>): (r: Option<FrameEvidence>)
    ensures r.Some? && HasKeys(r.value) ==> r.value.frameIndex == Some(index) && r.value.frameTotal == Some(total)
    ensures callModel(frame, prompt, index, total).None? ==> r.None?
  {
    match callModel(frame, prompt, index, total)
    case None => None
    case Some(content) =>
      match ParseJsonResponse(content, parse)
      case None => None
      case Some(e) =>
        if HasKeys(e) then Some(e.(frameIndex := Some(index), frameTotal := Some(total))) else Some(e)
  }

  /** `if frame_result:` */
  predicate Kept(r: Option<FrameEvidence>)
  {
    r.Some? && HasKeys(r.value)
  }

  /** What `_analyze_single_frame` gives for each frame, in frame order. */
  function Replies<F>(frames: seq<F>, prompt: string,
                      callModel: (F, string, nat, nat) -> Option<string>,
                      parse: string -> Option<FrameEvidence>): seq<Option<FrameEvidence>>
  {
    seq(|frames|, i requires 0 <= i < |frames| => AnalyzeSingleFrame(frames[i], prompt, i, |frames|, callModel, parse))
  }

  lemma ReplyAt<F>(frames: seq<F>, prompt: string,
                   callModel: (F, string, nat, nat) -> Option<string>,
                   parse: string -> Option<FrameEvidence>, i: nat)
    requires i < |frames|
    ensures |Replies(frames, prompt, callModel, parse)| == |frames|
    ensures Replies(frames, prompt, callModel, parse)[i] == AnalyzeSingleFrame(frames[i], prompt, i, |frames|, callModel, parse)
  {
  }

  /** Every non-empty reply carries its own position and the number of replies. */
  ghost predicate Tagged(replies: seq<Option<FrameEvidence>>)
  {
    forall i :: 0 <= i < |replies| && Kept(replies[i]) ==>
      replies[i].value.frameIndex == Some(i) && replies[i].value.frameTotal == Some(|replies|)
  }

  lemma RepliesTagged<F>(frames: seq<F>, prompt: string,
                         callModel: (F, string, nat, nat) -> Option<string>,
                         parse: string -> Option<FrameEvidence>)
    ensures |Replies(frames, prompt, callModel, parse)| == |frames|
    ensures Tagged(Replies(frames, prompt, callModel, parse))
  {
  }

  /** The non-empty replies among the first `n`, in frame order. */
  function KeptReplies(replies: seq<Option<FrameEvidence>>, n: nat): seq<FrameEvidence>
    requires n <= |replies|
  {
    if n == 0 then []
    else KeptReplies(replies, n - 1) + (if Kept(replies[n - 1]) then [replies[n - 1].value] else [])
  }

  /** `analyze_frames`: one prompt for all frames, failed frames dropped. */
  method AnalyzeFrames<F>(frames: seq<F>, audio: AudioHypothesis,
                          callModel: (F, string, nat, nat) -> Option<string>,
                          parse: string -> Option<FrameEvidence>)
    returns (results: seq<FrameEvidence>)
    ensures results == KeptReplies(Replies(frames, SystemPrompt(audio), callModel, parse), |frames|)
  {
    var prompt := BuildSystemPrompt(audio);
    results := AnalyzeEach(frames, prompt, callModel, parse);
  }

  /** The loop of `analyze_frames`: each frame in turn, keeping the non-empty replies. */
  method AnalyzeEach<F>(frames: seq<F>, prompt: string,
                        callModel: (F, string, nat, nat) -> Option<string>,
                        parse: string -> Option<FrameEvidence>)
    returns (results: seq<FrameEvidence>)
    ensures results == KeptReplies(Replies(frames, prompt, callModel, parse), |frames|)
  {
    ghost var replies := Replies(frames, prompt, callModel, parse);
    results := [];
    for i := 0 to |frames|
      invariant |replies| == |frames|
      invariant results == KeptReplies(replies, i)
    {
      var r := AnalyzeSingleFrame(frames[i], prompt, i, |frames|, callModel, parse);
      ReplyAt(frames, prompt, callModel, parse, i);
      if r.Some? && HasKeys(r.value) {
        results := results + [r.value];
      }
    }
  }

  /**
   * At most one result per frame; each carries the frame count and the
   * position of its frame, and positions increase along the results.
   */
  lemma {:induction false} KeptRepliesTagged(replies: seq<Option<FrameEvidence>>, n: nat)
    requires n <= |replies| && Tagged(replies)
    ensures var rs := KeptReplies(replies, n);
      && |rs| <= n
      && (forall k :: 0 <= k < |rs| ==>
            rs[k].frameTotal == Some(|replies|) && rs[k].frameIndex.Some? && 0 <= rs[k].frameIndex.value < n)
      && (forall k, l :: 0 <= k < l < |rs| ==> rs[k].frameIndex.value < rs[l].frameIndex.value)
    decreases n
  {
    if n > 0 {
      KeptRepliesTagged(replies, n - 1);
    }
  }

  /** Some result comes from frame `i`. */
  predicate HasResultFor(rs: seq<FrameEvidence>, i: nat)
  {
    exists k :: 0 <= k < |rs| && rs[k].frameIndex == Some(i)
  }

  /** A frame has a result exactly when its request succeeded and its reply was a non-empty object. */
  lemma {:induction false} KeptIff(replies: seq<Option<FrameEvidence>>, n: nat, i: nat)
    requires i < n <= |replies| && Tagged(replies)
    ensures HasResultFor(KeptReplies(replies, n), i) <==> Kept(replies[i])
    decreases n
  {
    var rs := KeptReplies(replies, n);
    var prev := KeptReplies(replies, n - 1);
    KeptRepliesTagged(replies, n - 1);
    if i < n - 1 {
      KeptIff(replies, n - 1, i);
      assert forall k :: 0 <= k < |prev| ==> rs[k] == prev[k];
      assert forall k :: |prev| <= k < |rs| ==> rs[k].frameIndex == Some(n - 1);
      if Kept(replies[i]) {
        var k :| 0 <= k < |prev| && prev[k].frameIndex == Some(i);
        assert 0 <= k < |rs| && rs[k].frameIndex == Some(i);
      } else {
        forall k | 0 <= k < |rs|
          ensures rs[k].frameIndex != Some(i)
        {
          if k < |prev| {
            assert rs[k] == prev[k];
          }
        }
      }
    } else {
      assert forall k :: 0 <= k < |prev| ==> rs[k].frameIndex.value < n - 1;
      if Kept(replies[i]) {
        assert rs[|prev|].frameIndex == Some(i);
      }
    }
  }

  /** The frame results of `analyze_frames`, stated over the frames themselves. */
  lemma AnalyzeFramesResults<F>(frames: seq<F>, audio: AudioHypothesis,
                                callModel: (F, string, nat, nat) -> Option<string>,
                                parse: string -> Option<FrameEvidence>, i: nat)
    requires i < |frames|
    ensures var rs := KeptReplies(Replies(frames, SystemPrompt(audio), callModel, parse), |frames|);
      && |rs| <= |frames|
      && (forall k :: 0 <= k < |rs| ==> rs[k].frameTotal == Some(|frames|) && rs[k].frameIndex.Some?)
      && (forall k, l :: 0 <= k < l < |rs| ==> rs[k].frameIndex.value < rs[l].frameIndex.value)
      && ((exists k :: 0 <= k < |rs| && rs[k].frameIndex == Some(i)) <==>
          Kept(AnalyzeSingleFrame(frames[i], SystemPrompt(audio), i, |frames|, callModel, parse)))
  {
    var replies := Replies(frames, SystemPrompt(audio), callModel, parse);
    RepliesTagged(frames, SystemPrompt(audio), callModel, parse);
    KeptRepliesTagged(replies, |frames|);
    KeptIff(replies, |frames|, i);
  }
}
