# A verified model of the calorie bot's analysis core

The bot is a Telegram assistant that estimates what is on a plate. It works from a photo or a
video note and keeps a daily food log. This project is a Dafny model of the deterministic logic
between its network, vision and database calls. Each source file of that core has its own module.

- **Video notes.**
  - Key frames are chosen after a skip window, scored and put back in shooting order (`KeyframeExtractor`).
  - The transcript is scanned against fixed lexicons (`AudioContextParser`).
  - The vision model is asked about each frame (`VideoAnalyzer`), and its JSON is extracted from the reply (`JsonResponse`).
  - Frames vote on which components to keep, with a bonus for what the speaker named, and the totals are aggregated (`EvidenceAggregator`).
- **Corrections.**
  - A message is classified as weight change, removal, addition or modification by the first matching pattern (`CorrectionValidator`).
  - It is applied to the analysis in place (`CorrectionParser`).
  - Alternatively, a language model's corrected analysis is validated and merged over the original (`AICorrectionHandler`).
- **Nutrition arithmetic and checks.**
  - `CalorieCalculator` and the plausibility checks `FoodAnalysisValidator` and `Validator`.
  - The registration-input and photo checks `UserInputValidator` and `PhotoValidator`.
  - Comparison with typical dishes (`DishComparator`).
  - The photo path's required fields and mock analysis (`PhotoAnalyzer`).
- **State.**
  - The workflow state table and its state manager (`StateMachine`).
  - The meal-analysis session lifecycle (`SessionManager`).
  - User goals and daily progress (`UserManager`).
  - The daily-stats update and goal messages of meal confirmation (`MealConfirmation`).
  - The legacy TTL cache (`TtlCache`).
- **Helpers.**
  - The web API's arithmetic (`BackendUtils`) and the callback-data codec of inline keyboards (`Keyboards`).
  - Shared pieces:
    - `Common`: Python's `int()` as truncation toward zero, `round()` half-to-even, string helpers;
    - `Food`: the analysis record;
    - `Json`: a decoded JSON value;
    - `Sorting`: a stable descending sort.

Code that mutates state stays imperative:
- the analysis dictionary (`Food.AnalysisDict`);
- the validator's warning list;
- the state, session, user, daily-stats and cache stores, which are classes whose map fields the methods reassign.

Loops in the source are `while`/`for` loops proved against reference functions. Pure computations
are functions, and what the source promises is proved in lemmas beside them.

Everything outside the core enters as a parameter:
- the vision and language-model requests (`callModel`, `reply`);
- the JSON decoder (`parse`);
- `difflib.SequenceMatcher.ratio` (`ratio`);
- OpenCV's frame metrics;
- the clock (`now`, `stamp`) and the random part of a session id (`token`);
- today's meals read from the database.

The iteration order of a Python `set` (`order`) is also a parameter.

## Model

A function whose own contract says nothing beyond its body is listed through the lemmas that state its properties. Those rows cite the function's lines.

| member | source | states |
|---|---|---|
| JsonResponse.BraceSlice | modules/nutrition/photo_analyzer.py:224-232 | no slice exactly when the reply lacks a '{' or a '}'; a non-empty slice starts with '{' and ends with '}' |
| JsonResponse.BraceSliceBounds | modules/nutrition/photo_analyzer.py:224-232 | for a reply `pre + body + post` with no '{' in `pre` and no '}' in `post`, the slice is exactly `body` |
| JsonResponse.UnfenceKeepsPlainText | modules/nutrition/photo_analyzer.py:222 | removing the markdown fences leaves a reply without backticks unchanged |
| JsonResponse.UnfenceStripsFences | modules/nutrition/photo_analyzer.py:222 | a reply fenced with three backticks and the json tag loses exactly the two fences |
| JsonResponse.StripLineComments | modules/nutrition/photo_analyzer.py:243 | the lazy `//` comment substitution never lengthens the text |
| JsonResponse.LineCommentsKeepNewlines | modules/nutrition/photo_analyzer.py:243 | removing line comments keeps the number of line breaks |
| JsonResponse.StripBlockComments | modules/nutrition/photo_analyzer.py:244 | the block comment substitution never lengthens the text |
| JsonResponse.StripTrailingCommas | modules/nutrition/photo_analyzer.py:246 | the trailing comma substitution never lengthens the text |
| JsonResponse.LinePlainKept | modules/nutrition/photo_analyzer.py:243 | text in which no `//` starts is copied unchanged by the line comment substitution |
| JsonResponse.LineCommentRemoved | modules/nutrition/photo_analyzer.py:243 | in `a + "//" + c + "\n" + b`, with no `//` starting in `a` and no line break in `c`, the comment is removed, its line break stays, `a` is kept and the substitution continues on `b` |
| JsonResponse.BlockPlainKept | modules/nutrition/photo_analyzer.py:244 | text in which no slash-star starts is copied unchanged by the block comment substitution |
| JsonResponse.BlockCommentRemoved | modules/nutrition/photo_analyzer.py:244 | a block comment after a stretch `a` with no comment opener is removed up to its first closing star-slash, across lines; `a` is kept and the substitution continues after the comment |
| JsonResponse.CommaPlainKept | modules/nutrition/photo_analyzer.py:246 | text holding no comma that only blanks separate from a closing bracket is copied unchanged |
| JsonResponse.TrailingCommaRemoved | modules/nutrition/photo_analyzer.py:246 | in `a + "," + w + [close] + b`, with only blanks in `w` and `close` a `}` or `]`, the comma is dropped, the blanks and the bracket stay, `a` is kept and the substitution continues on `b` |
| JsonResponse.TrailingCommasKeepOthers | modules/nutrition/photo_analyzer.py:246 | only commas are removed: every other character occurs as often as before |
| JsonResponse.CleanKeepsPlainText | modules/nutrition/photo_analyzer.py:241-246 | a text with no '/' and no ',' comes through all three cleaning substitutions unchanged |
| JsonResponse.ParseJsonResponse | modules/nutrition/photo_analyzer.py:219-252 | nothing is parsed without both braces; a slice the parser accepts is the answer; otherwise the answer is the parse of the cleaned slice |
| JsonResponse.FencedObjectIsParsed | modules/nutrition/photo_analyzer.py:219-236 | a fenced reply holding an object the parser accepts gives that object |
| JsonResponse.BareObjectIsParsed | modules/nutrition/photo_analyzer.py:219-236 | a bare object without backticks the parser accepts is returned as parsed |
| KeyframeExtractor.Duration | modules/video_analysis/keyframe_extractor.py:56-58 | the duration is 0 without a positive frame rate, and otherwise the one that gives back the frame count when multiplied by the rate |
| KeyframeExtractor.SkipSeconds | modules/video_analysis/keyframe_extractor.py:62-71 | one second is skipped exactly for clips under 5 s, two exactly from 5 s up to 10 s, three exactly from 10 s on |
| KeyframeExtractor.ScoreInUnitRange | modules/video_analysis/keyframe_extractor.py:127-179 | for metrics a real frame can have, the combined quality score lies between 0 and 1 |
| KeyframeExtractor.FirstScored | modules/video_analysis/keyframe_extractor.py:86-89 | the first scored frame is the skip count when the clip is long enough, frame 0 when nothing is skipped, never past the end |
| KeyframeExtractor.ScoredFrames | modules/video_analysis/keyframe_extractor.py:77-96 | one (index, score) pair per frame after the skip window, in reading order, with consecutive indices |
| KeyframeExtractor.ScoredFramesShape | modules/video_analysis/keyframe_extractor.py:78-95 | every score is the frame's own score with a preceding frame, except the first scored frame, which has none |
| KeyframeExtractor.Process | modules/video_analysis/keyframe_extractor.py:28-125 | the selected frame indices are those of the key frame selection: skip, score, rank, keep the best, restore order |
| KeyframeExtractor.KeyframesOutsideSkipWindow | modules/video_analysis/keyframe_extractor.py:73-89 | no key frame comes from the skip window or past the end of the clip |
| KeyframeExtractor.KeyframesCount | modules/video_analysis/keyframe_extractor.py:104-106 | as many key frames as asked for, or every scored frame when there are fewer |
| KeyframeExtractor.KeyframesChronological | modules/video_analysis/keyframe_extractor.py:108-109 | the key frames come out in the order they were shot in |
| KeyframeExtractor.KeyframesAreBest | modules/video_analysis/keyframe_extractor.py:104-106 | every kept frame scores at least as high as every scored frame left out |
| Sorting.SortDescending | modules/video_analysis/keyframe_extractor.py:105 | the descending sort is a permutation of its input, ordered by key from highest to lowest |
| Sorting.SortDescendingStable | modules/video_analysis/keyframe_extractor.py:105 | the sort is stable: for every key value, the elements carrying it come out in the order they went in |
| Sorting.Take | modules/video_analysis/keyframe_extractor.py:106 | the slice `[:n]` is a prefix of the list, of length n or the whole list when n is at least its length |
| AudioContextParser.PresentMembers | modules/video_analysis/audio_context_parser.py:251-273 | a lexicon word is reported exactly when it is in the lexicon and occurs in the lower-cased text |
| AudioContextParser.PresentFirst | modules/video_analysis/audio_context_parser.py:259-273 | the first word reported is the first lexicon word, in lexicon order, that the text contains |
| AudioContextParser.PresentDistinct | modules/video_analysis/audio_context_parser.py:251-273 | a lexicon without duplicates gives a report without duplicates |
| AudioContextParser.PresentKeepsLexiconOrder | modules/video_analysis/audio_context_parser.py:251-273 | the report follows lexicon order, not the order the words were spoken in |
| AudioContextParser.FirstUnitAt | modules/video_analysis/audio_context_parser.py:244-249 | the unit alternative chosen is the first one, in pattern order, that matches at that position; none only when no alternative matches |
| AudioContextParser.MatchAt | modules/video_analysis/audio_context_parser.py:244-249 | a match starts exactly at a digit followed, after optional blanks, by a unit of the pattern, and ends after that unit |
| AudioContextParser.FoundUnitsAllowed | modules/video_analysis/audio_context_parser.py:244-249 | if the engine can only pick allowed units, every match found carries an allowed unit |
| AudioContextParser.MatchedUnitsFromPattern | modules/video_analysis/audio_context_parser.py:244-249 | every match carries one of the pattern's own units |
| AudioContextParser.GramShadows | modules/video_analysis/audio_context_parser.py:244 | at any position the weight unit picked is "г", "кг" or "кило": "грам" and "грамм" are shadowed by "г" |
| AudioContextParser.WeightUnitsShadowed | modules/video_analysis/audio_context_parser.py:244-245 | every weight match carries "г", "кг" or "кило" |
| AudioContextParser.SecondaryPairing | modules/video_analysis/audio_context_parser.py:304-314 | the i-th further food gets the i-th quantity as "qty unit", foods past the last quantity get none, all at confidence 0.6 |
| AudioContextParser.ScanLexicon | modules/video_analysis/audio_context_parser.py:252-273 | the append loop over a lexicon produces exactly the lexicon words present in the text |
| AudioContextParser.PairQuantities | modules/video_analysis/audio_context_parser.py:305-314 | the loop over the further foods produces exactly the pairing above |
| AudioContextParser.ParseFoodHypothesis | modules/video_analysis/audio_context_parser.py:225-316 | the scanner's result is the hypothesis of the lower-cased transcript |
| AudioContextParser.HypothesisShape | modules/video_analysis/audio_context_parser.py:275-314 | a primary dish exactly when a food was mentioned, named after the first one; a weight guess exactly when a weight matched, at 0.5 with a certainty word and 0.7 without; every other mentioned food a secondary item at 0.6; a cooking style exactly when one is mentioned; which style and which weight are `AudioContextParser.HypothesisFirstWords` and `AudioContextParser.HypothesisWeightGuess` |
| AudioContextParser.HypothesisFirstWords | modules/video_analysis/audio_context_parser.py:275-300 | the cooking style is `cooking_styles[0]` and the primary dish `mentioned_foods[0]`: the first word of each lexicon, in lexicon order, that the transcript contains |
| AudioContextParser.FindFirstAt | modules/video_analysis/audio_context_parser.py:245 | the first match `findall` reports is the one at the leftmost position where a match starts |
| AudioContextParser.FirstWeightMatch | modules/video_analysis/audio_context_parser.py:245 | the first weight match is the leftmost one, and its unit is "г", "кг" or "кило" |
| AudioContextParser.GuessFromFirstWeight | modules/video_analysis/audio_context_parser.py:289-297 | a primary dish's weight guess takes the value and unit of `weights[0]` |
| AudioContextParser.HypothesisWeightGuess | modules/video_analysis/audio_context_parser.py:245-297 | the weight guess of a primary dish is the number and unit of the leftmost number followed by a weight unit in the transcript |
| AudioContextParser.MockHypothesis | modules/video_analysis/audio_context_parser.py:212-223 | the mock has an empty transcription, no primary dish, no style and empty lists |
| AudioContextParser.EmptyTranscriptionIsMock | modules/video_analysis/audio_context_parser.py:52-71 | an empty transcription, with or without mock mode or extracted audio, yields the mock hypothesis |
| AudioContextParser.TranscriptionIsScanned | modules/video_analysis/audio_context_parser.py:62-76 | with audio extracted and a non-empty transcription, the transcription is kept and scanned |
| EvidenceAggregator.CollectAllComponents | modules/video_analysis/evidence_aggregator.py:84-91 | the loop collects exactly the lower-cased names listed by any frame |
| EvidenceAggregator.GetVotesForComponent | modules/video_analysis/evidence_aggregator.py:93-134 | the votes are every listing of the name across the frames, in frame order; positives count them and the total is the number of frames |
| EvidenceAggregator.CollectedIffVoted | modules/video_analysis/evidence_aggregator.py:84-134 | a name is collected exactly when it gets at least one vote |
| EvidenceAggregator.VotesAtMostFrames | modules/video_analysis/evidence_aggregator.py:93-134 | when no frame lists a name twice, its votes never exceed the number of frames |
| EvidenceAggregator.DoubleListingVotesTwice | modules/video_analysis/evidence_aggregator.py:93-134 | one frame listing a name twice casts two votes for it |
| EvidenceAggregator.AnyEquals | modules/video_analysis/evidence_aggregator.py:146-153 | some entry, lower-cased, equals the name exactly |
| EvidenceAggregator.AudioBonus | modules/video_analysis/evidence_aggregator.py:49-53 | the bonus is 0.3 exactly when the primary dish, a secondary item or a mentioned item equals the name after lower-casing, and 0 otherwise |
| EvidenceAggregator.SubstringEarnsNoBonus | modules/video_analysis/evidence_aggregator.py:136-155 | a spoken word that merely contains the name earns no bonus |
| EvidenceAggregator.MakeDecision | modules/video_analysis/evidence_aggregator.py:157-185 | no frames: excluded; otherwise kept exactly when ratio plus bonus reaches 0.4, high tier from 0.6, medium between, low below 0.4 |
| EvidenceAggregator.DecisionMonotone | modules/video_analysis/evidence_aggregator.py:157-185 | more positive votes or a larger bonus never drop a kept component and never lower a high tier |
| EvidenceAggregator.WeightedMeanBetween | modules/video_analysis/evidence_aggregator.py:205-212 | a confidence-weighted mean lies between the smallest and the largest value voted |
| EvidenceAggregator.Multiplier | modules/video_analysis/evidence_aggregator.py:216 | the confidence multiplier lies between 0.5 and 1 |
| EvidenceAggregator.CalculateAverages | modules/video_analysis/evidence_aggregator.py:187-227 | no values: zeros at confidence 0.5; a zero confidence sum raises; otherwise the title-cased name, truncated weighted weight and energy, macros rounded to a tenth |
| EvidenceAggregator.UnanimousWeightIsKept | modules/video_analysis/evidence_aggregator.py:205-221 | frames that agree on a whole, non-negative weight give exactly that weight |
| EvidenceAggregator.HealthScore | modules/video_analysis/evidence_aggregator.py:251-259 | 5 plus one point each for protein over 20, fat under 20 and carbohydrates under 50, so between 5 and 8 |
| EvidenceAggregator.VideoWarnings | modules/video_analysis/evidence_aggregator.py:261-268 | each warning appears exactly when its threshold is crossed: energy over 800, carbohydrates over 100, protein under 15 |
| EvidenceAggregator.DishName | modules/video_analysis/evidence_aggregator.py:243-249 | "Неизвестное блюдо" without components; otherwise the first component's name, followed by " с " and the lower-cased second name when there are two or more |
| EvidenceAggregator.DishNameUsesFirstTwo | modules/video_analysis/evidence_aggregator.py:243-249 | components after the second never change the dish name |
| EvidenceAggregator.BuildFinalAnalysis | modules/video_analysis/evidence_aggregator.py:229-284 | the components as given; the dish name; weight and energy totals; energy per 100 g truncated, 0 without weight; protein, fat and carbohydrate totals rounded to 0.1; the health score of those totals, from 5 to 8; warnings by threshold; source "video_note"; the transcription and whether it is non-empty; no metadata yet |
| EvidenceAggregator.ActualDishesMembers | modules/video_analysis/evidence_aggregator.py:286-294 | a dish is collected exactly when some frame names it as the actual dish |
| EvidenceAggregator.ConflictIffDisagreement | modules/video_analysis/evidence_aggregator.py:286-299 | one conflict is reported exactly when two frames name different actual dishes |
| EvidenceAggregator.OverallConfidenceInUnitRange | modules/video_analysis/evidence_aggregator.py:301-314 | with component confidences in [0, 1], the overall confidence is in [0, 1] too |
| EvidenceAggregator.EmptyAnalysis | modules/video_analysis/evidence_aggregator.py:316-332 | the empty analysis has no components, zero totals and health score, one warning, and no transcription used |
| EvidenceAggregator.Outcomes | modules/video_analysis/evidence_aggregator.py:46-65 | the fate of every collected name is judged on its own, in iteration order |
| EvidenceAggregator.FailureIsFinal | modules/video_analysis/evidence_aggregator.py:46-65 | once averaging raises for one name, the whole aggregation fails |
| EvidenceAggregator.JudgeComponent | modules/video_analysis/evidence_aggregator.py:47-65 | one pass of the loop body gives the judgement of that name |
| EvidenceAggregator.Aggregate | modules/video_analysis/evidence_aggregator.py:19-82 | the aggregation loop over the collected names gives the aggregate result for that iteration order |
| EvidenceAggregator.EmptyEvidenceGivesEmptyAnalysis | modules/video_analysis/evidence_aggregator.py:37-39 | without frames the answer is the fixed empty analysis, whatever the audio said |
| EvidenceAggregator.KeptAreJudgedIncluded | modules/video_analysis/evidence_aggregator.py:46-65 | the kept components are exactly the averaged components of the names the vote kept, whatever the iteration order |
| EvidenceAggregator.AggregateTotals | modules/video_analysis/evidence_aggregator.py:67-80 | a successful aggregate carries its kept components, their weight and energy totals, their protein, fat and carbohydrate totals rounded to 0.1, and the dish name; its metadata counts the frames, reports a conflict exactly when frames disagree, says whether a transcription was used, and holds the overall confidence of the final analysis, in [0, 1] when every component confidence is |
| VideoAnalyzer.BuildSystemPrompt | modules/video_analysis/video_analyzer.py:63-143 | the prompt built step by step is the system prompt of the hypothesis |
| VideoAnalyzer.AppendHypothesisLines | modules/video_analysis/video_analyzer.py:99-111 | the lines appended are exactly the hypothesis lines, after what was there |
| VideoAnalyzer.GenericPromptIff | modules/video_analysis/video_analyzer.py:76-91 | the generic prompt is used exactly when the speaker gave neither a primary dish nor a transcription |
| VideoAnalyzer.HypothesisPromptQuotesTranscription | modules/video_analysis/video_analyzer.py:93-97 | otherwise the prompt opens with the header and quotes the transcription word for word |
| VideoAnalyzer.HypothesisLinesShape | modules/video_analysis/video_analyzer.py:99-111 | dish lines exactly when there is a primary dish; a weight line exactly when it has a weight guess; a line of further items exactly when there are any |
| VideoAnalyzer.HypothesisPromptLayout | modules/video_analysis/video_analyzer.py:93-143 | the hypothesis prompt is the header, the hypothesis lines and the closing instructions, in that order |
| VideoAnalyzer.AnalyzeSingleFrame | modules/video_analysis/video_analyzer.py:145-242 | a failed request gives nothing; a non-empty parsed reply is tagged with the frame's position and the frame count |
| VideoAnalyzer.RepliesTagged | modules/video_analysis/video_analyzer.py:145-242 | one reply per frame, each non-empty one tagged with its own position and the frame count |
| VideoAnalyzer.AnalyzeFrames | modules/video_analysis/video_analyzer.py:29-61 | the results are the non-empty replies to one shared prompt, in frame order |
| VideoAnalyzer.AnalyzeEach | modules/video_analysis/video_analyzer.py:50-59 | the loop keeps exactly the non-empty replies, in frame order |
| VideoAnalyzer.KeptRepliesTagged | modules/video_analysis/video_analyzer.py:50-59 | at most one result per frame; each carries the frame count and its frame's position, and positions increase along the results |
| VideoAnalyzer.KeptIff | modules/video_analysis/video_analyzer.py:58-59 | a frame has a result exactly when its reply was kept |
| VideoAnalyzer.AnalyzeFramesResults | modules/video_analysis/video_analyzer.py:29-61 | the results stated over the frames: at most one per frame, tagged, in increasing frame order, and present for a frame exactly when its request succeeded with a non-empty object |
| CorrectionValidator.LineEnd | utils/validators.py:283-305 | the end of a regex line: the next line break at or after the position, or the end of the text, with no line break before it |
| CorrectionValidator.SpacesThenLine | utils/validators.py:283-294 | the pattern part `\s+(.+)` matches only where a blank stands |
| CorrectionValidator.DigitsThenGram | utils/validators.py:340 | `(\d+)\s*г` matches at a digit, takes the whole digit run, and ends just after a 'г' |
| CorrectionValidator.GramSearch | utils/validators.py:340 | a position the weight search reports holds a match of `(\d+)\s*г` |
| CorrectionValidator.GramSearchLeftmost | utils/validators.py:340 | the weight search reports the leftmost match |
| CorrectionValidator.GramSearchNoDigits | utils/validators.py:340 | a text without digits has no weight in it |
| CorrectionValidator.RemoveGrams | utils/validators.py:343 | cutting out every `\d+\s*г` never lengthens the text |
| CorrectionValidator.RemoveGramsPlain | utils/validators.py:343 | a stretch without digits is copied unchanged by the substitution |
| CorrectionValidator.Normalized | utils/validators.py:318 | the text the patterns see is lower-cased and has no whitespace at either end |
| CorrectionValidator.NormalizedUnchanged | utils/validators.py:318 | a lower-case text without whitespace at either end is seen as it is |
| CorrectionValidator.FirstMatching | utils/validators.py:321-354 | one loop over a pattern list gives the first pattern's leftmost match |
| CorrectionValidator.DetectCorrectionType | utils/validators.py:309-356 | the classification, list by list with early return, is the detected correction of the text |
| CorrectionValidator.ValidateCorrection | utils/validators.py:359-382 | accepted exactly when the stripped text has at least 3 characters, the text at most 500, and a correction is detected; too short exactly when the stripped text has under 3 characters; too long exactly when it is not too short and the text has over 500 characters; unrecognised exactly when neither length limit applies and no correction is detected |
| CorrectionValidator.SearchFromLeftmost | utils/validators.py:322 | `re.search` reports the match at the leftmost position where there is one |
| CorrectionValidator.MatchNeedsAnchor | utils/validators.py:283-305 | wherever a pattern matches, one of its literal words occurs in the text |
| CorrectionValidator.AnchorsAbsent | utils/validators.py:283-305 | a pattern none of whose literal words occurs is not found |
| CorrectionValidator.NoDigitsNoWeightChange | utils/validators.py:301-305 | a text without digits matches no weight-change pattern |
| CorrectionValidator.WholeWeightNeedsLeadingDigit | utils/validators.py:302 | the anchored bare-weight pattern is not found in a text that does not start with a digit |
| CorrectionValidator.TailNeedsCommaOrSpace | utils/validators.py:296-298 | the tail of a modify pattern can start only at a comma or a blank |
| CorrectionValidator.AddWithoutWeight | utils/validators.py:338-346 | an item text without digits is added under its own name with no weight |
| CorrectionValidator.AddWithWeight | utils/validators.py:338-344 | "name N г" adds the item "name" with weight N |
| CorrectionValidator.DetectRemoveWhen | utils/validators.py:327-332 | with no weight change found, the first removal match gives a removal of its stripped group |
| CorrectionValidator.DetectAddWhen | utils/validators.py:334-346 | with no weight change or removal found, the first addition match gives an addition of its stripped group |
| CorrectionValidator.DetectModifyWhen | utils/validators.py:348-354 | with no earlier list matching, a modify match renames the stripped second group to the stripped first group |
| CorrectionValidator.NoRemoval | utils/validators.py:283-288 | a text with none of the removal words asks for no removal |
| CorrectionValidator.NoAddition | utils/validators.py:290-294 | a text with none of the addition words asks for no addition |
| CorrectionValidator.NoModification | utils/validators.py:296-299 | a text with neither "это" nor "не" asks for no modification |
| CorrectionValidator.NoWeightChange | utils/validators.py:301-305 | a text that does not start with a digit and has none of the weight words asks for no weight change |
| CorrectionValidator.DetectRemovePlain | utils/validators.py:327-332 | a plain line the removal list matches asks to remove the matched item |
| CorrectionValidator.DetectAddPlain | utils/validators.py:334-346 | a lower-case trimmed line matched only by the addition list asks to add the matched item |
| CorrectionValidator.DetectModifyPlain | utils/validators.py:348-354 | a plain line matched only by the modify list asks to rename the old item to the new one |
| CorrectionValidator.ThisNotThatLazy | utils/validators.py:297 | in "это new, а не old" the lazy group stops at the comma and the old item is the rest of the line |
| CorrectionValidator.DetectBareWeight | utils/validators.py:301-325 | a bare weight "Nг" asks to change the weight to N |
| CorrectionValidator.DetectRemoveBread | tests/test_validators.py:189-193 | "нет хлеба" asks to remove "хлеба" |
| CorrectionValidator.DetectRemoveSalad | tests/test_validators.py:195-197 | "убери салат" asks to remove "салат" |
| CorrectionValidator.DetectAddCucumber | tests/test_validators.py:207-210 | "добавь огурец" asks to add "огурец" with no weight |
| CorrectionValidator.DetectAddSalad | tests/test_validators.py:200-205 | "добавь салат 100г" asks to add "салат" weighing 100 g |
| CorrectionValidator.DetectModifyChicken | tests/test_validators.py:213-218 | "это курица, а не свинина" asks to replace "свинина" with "курица" |
| CorrectionValidator.ValidateBread | tests/test_validators.py:224-226 | "нет хлеба" is accepted |
| CorrectionValidator.ValidateTwoLetters | tests/test_validators.py:229-230 | "ab" is refused as too short |
| CorrectionValidator.ValidateSixHundred | tests/test_validators.py:233-234 | six hundred letters are refused as too long |
| CorrectionValidator.ValidateVague | tests/test_validators.py:237-238 | "какой-то текст" is refused as unrecognised |
| CorrectionParser.WithTotalsAgree | modules/nutrition/correction_parser.py:224-253 | recalculated totals agree with the components, and the components, dish name, health score and warnings are untouched |
| CorrectionParser.TotalNonNegative | modules/nutrition/correction_parser.py:236-242 | totals over components with no negative value are never negative |
| CorrectionParser.RecalculateTotals | modules/nutrition/correction_parser.py:224-253 | the analysis in place becomes the one with recalculated totals |
| CorrectionParser.Kept | modules/nutrition/correction_parser.py:69-104 | removal never lengthens the component list |
| CorrectionParser.ApplyRemove | modules/nutrition/correction_parser.py:69-104 | the components become those that survive the lower-cased item, and the totals are recalculated |
| CorrectionParser.KeptExactly | modules/nutrition/correction_parser.py:69-104 | a component is kept exactly when it was there and neither name contains the other |
| CorrectionParser.KeptAll | modules/nutrition/correction_parser.py:69-104 | when nothing matches, the list comes back as it was |
| CorrectionParser.KeptPrefix | modules/nutrition/correction_parser.py:69-104 | removal keeps the relative order of the components |
| CorrectionParser.NamelessRemoved | modules/nutrition/correction_parser.py:69-104 | the empty name is inside every item, so a nameless component is always removed |
| CorrectionParser.ApplyAdd | modules/nutrition/correction_parser.py:106-144 | a missing weight raises and leaves the analysis alone; otherwise the new component is appended and the totals recalculated |
| CorrectionParser.NewComponentEnergy | modules/nutrition/correction_parser.py:125-135 | a user-added component has no negative value and never claims more energy from its macros than its calories |
| CorrectionParser.AddRaisesTotals | modules/nutrition/correction_parser.py:137-144 | appending raises every total by the new component's value |
| CorrectionParser.FirstNamed | modules/nutrition/correction_parser.py:167-175 | the index of the first component the old item names, with none named before it |
| CorrectionParser.ApplyModify | modules/nutrition/correction_parser.py:146-181 | only the first named component is renamed, at confidence 0.7; the totals are not recalculated |
| CorrectionParser.RenameFirstOnly | modules/nutrition/correction_parser.py:167-181 | renaming changes at most the first named component, keeps the length and every total, and changes nothing when no component is named |
| CorrectionParser.ScaledAll | modules/nutrition/correction_parser.py:210-217 | scaling keeps the number of components |
| CorrectionParser.ApplyWeightChange | modules/nutrition/correction_parser.py:183-222 | nothing happens at a current weight of 0; otherwise every component is scaled to the new total and the totals recalculated |
| CorrectionParser.ScaledWeightBounds | modules/nutrition/correction_parser.py:212-213 | truncating each scaled weight loses less than one gram per component and never adds any |
| CorrectionParser.WeightChangeLandsBelowTarget | modules/nutrition/correction_parser.py:183-222 | after a weight change, the new total weight lies within one gram per component below the requested weight, never above |
| CorrectionParser.ApplyCorrection | modules/nutrition/correction_parser.py:51-63 | the dispatch either raises, leaving the analysis alone, or applies the correction of the detected type |
| CorrectionParser.ParseCorrection | modules/nutrition/correction_parser.py:19-67 | success, the analysis handed back and the error are those of the parse outcome; the analysis is changed in place only on success |
| CorrectionParser.RejectedText | modules/nutrition/correction_parser.py:39-42 | text the validator refuses is answered with the validator's own message |
| CorrectionParser.AppliedTotalsAgree | modules/nutrition/correction_parser.py:51-63 | after a removal, an addition with a weight, or a weight change from a non-zero weight, the totals agree with the components |
| CorrectionParser.AddWithoutWeightFails | modules/nutrition/correction_parser.py:121-125 | an addition detected without a weight always fails with the TypeError message; the 100 g default is never used |
| CorrectionParser.AddCucumberFails | modules/nutrition/correction_parser.py:19-67 | "добавь огурец" is accepted by the validator and then fails |
| CorrectionParser.DefaultComponent | modules/nutrition/correction_parser.py:122-135 | the component added by default is 100 g at 200 kcal, with 7 g protein, 6 g fat and 27 g carbohydrates at confidence 0.5 |
| CorrectionParser.IntendedAddSucceeds | modules/nutrition/correction_parser.py:121-144 | with the 100 g default applied, every addition succeeds, appends its component and leaves the totals in agreement |
| CorrectionParser.IntendedAgreesWithWeight | modules/nutrition/correction_parser.py:121-144 | the default changes nothing for an addition that names its weight |
| FoodAnalysisValidator.MissingAmongExactly | utils/validators.py:43-50 | a field is reported missing exactly when it is required and absent or None, and nothing else is reported |
| FoodAnalysisValidator.MissingIffAbsent | utils/validators.py:43-53 | no missing-field warning exactly when every required field is present |
| FoodAnalysisValidator.ValidateComponent | utils/validators.py:133-154 | the component's warnings, in the order the checks run |
| FoodAnalysisValidator.CheckRequired | utils/validators.py:48-50 | the loop over the required fields reports exactly the missing ones, in order |
| FoodAnalysisValidator.CheckComponents | utils/validators.py:123-127 | the loop extends the warnings with each component's own, in component order |
| FoodAnalysisValidator.ValidateAnalysis | utils/validators.py:33-130 | the warnings are those of the analysis, and it is valid exactly when there are none |
| FoodAnalysisValidator.CheckRanges | utils/validators.py:56-81 | the weight, energy and density checks give the range warnings |
| FoodAnalysisValidator.CheckMismatch | utils/validators.py:84-96 | the macro energy check gives the mismatch warning |
| FoodAnalysisValidator.CheckRatios | utils/validators.py:99-120 | the ratio checks give the protein, fat and carbohydrate warnings |
| FoodAnalysisValidator.MissingFieldsOnly | utils/validators.py:48-53 | an analysis missing a required field gets missing-field warnings only, one for each missing field |
| FoodAnalysisValidator.WeightKinds | utils/validators.py:56-60 | too low below 5 g, too high above 2000 g, nothing in between |
| FoodAnalysisValidator.CalorieKinds | utils/validators.py:63-67 | negative below 0, unrealistic above 5000, nothing in between |
| FoodAnalysisValidator.DensityKinds | utils/validators.py:70-81 | no density check without weight; low below 10 and high above 900 kcal per 100 g |
| FoodAnalysisValidator.RangeKinds | utils/validators.py:56-81 | each range warning appears exactly under its own condition, the elif branches excluding each other |
| FoodAnalysisValidator.RatioKinds | utils/validators.py:99-120 | a ratio warning appears exactly when protein lies outside 5-40%, fat outside 10-50% or carbohydrates outside 20-80% of the energy |
| FoodAnalysisValidator.MacroKinds | utils/validators.py:84-120 | no macro warning for non-positive energy; otherwise a mismatch exactly when the macro energy differs by more than 20%, plus the ratio warnings |
| FoodAnalysisValidator.ComponentKinds | utils/validators.py:123-127 | components only ever add component warnings |
| FoodAnalysisValidator.OneComponentKinds | utils/validators.py:133-154 | one component's checks only give component warnings |
| FoodAnalysisValidator.AnalysisKinds | utils/validators.py:33-130 | with every required field present, the warnings are the range, macro and component warnings and no missing-field warning |
| FoodAnalysisValidator.DumplingsAreValid | tests/test_validators.py:13-27 | the dumplings analysis of 250 g at 625 kcal passes without a warning |
| FoodAnalysisValidator.MismatchDetected | tests/test_validators.py:59-73 | 1000 kcal stated against 125 kcal of macros is reported as a mismatch |
| UserInputValidator.ParseIntRoundTrip | utils/validators.py:182-222 | reading back a printed integer gives the integer |
| UserInputValidator.ParseFloatOfInteger | utils/validators.py:161-180 | an integer text read as a float gives the same number |
| UserInputValidator.CommaToPoint | utils/validators.py:170 | the decimal comma replacement changes every comma into a point and nothing else |
| UserInputValidator.ValidateWeight | utils/validators.py:161-180 | a weight is returned exactly when the input is accepted |
| UserInputValidator.ValidateHeight | utils/validators.py:182-201 | a height is returned exactly when the input is accepted |
| UserInputValidator.ValidateAge | utils/validators.py:203-222 | an age is returned exactly when the input is accepted |
| UserInputValidator.WeightAcceptedRange | utils/validators.py:161-180 | a weight is accepted exactly when the text, commas made points, reads as a number from 30 to 300, and that number is returned |
| UserInputValidator.HeightAndAgeRanges | utils/validators.py:182-222 | a height is accepted exactly from 100 to 250 cm and an age from 10 to 100 years, each read as a whole number and returned |
| UserInputValidator.HeightRoundTrip | utils/validators.py:182-201 | every height from 100 to 250 printed and read back is accepted as itself |
| UserInputValidator.WholeKilograms | tests/test_validators.py:76-99 | a whole number of kilograms is refused as too small below 30, too big above 300, and accepted otherwise |
| UserInputValidator.DecimalCommaWeight | tests/test_validators.py:84-86 | a weight written with a decimal comma is read as a decimal number and judged by the same range |
| UserInputValidator.LettersRefused | tests/test_validators.py:102-104 | "abc" is refused as a format error |
| UserInputValidator.GoalValues | utils/validators.py:224-251 | every goal the table accepts maps to one of the three goals, and each goal's own name is accepted as itself |
| UserInputValidator.GoalTable | utils/validators.py:224-251 | the goal ignores letter case, is one of the three goals, and validating the answer again gives the same answer |
| UserInputValidator.GenderValues | utils/validators.py:253-277 | every gender the table accepts maps to male or female, and each name is accepted as itself |
| UserInputValidator.GenderTable | utils/validators.py:253-277 | the gender ignores letter case, is male or female, and validating the answer again gives the same answer |
| PhotoValidator.ValidatePhotoSize | utils/validators.py:392-404 | a photo is accepted exactly up to 10 MB, and then with no message |
| PhotoValidator.ValidatePhotoFormat | utils/validators.py:407-417 | a format is accepted exactly for JPEG, PNG and WebP, and then with no message |
| AICorrectionHandler.AiReply | modules/nutrition/ai_correction_handler.py:175-225 | a failed request gives no result; a reply is read by the shared JSON extraction |
| AICorrectionHandler.ObjectKeysCheckAll | modules/nutrition/ai_correction_handler.py:267-270 | for an object, the key check holds exactly when every listed key is present |
| AICorrectionHandler.ObjectKeysCheck | modules/nutrition/ai_correction_handler.py:260-270 | for an object, the required-key check holds exactly when all seven keys are present |
| AICorrectionHandler.ValidateCorrectionResultIff | modules/nutrition/ai_correction_handler.py:260-280 | a reply passes exactly when it is an object with the seven keys whose component entry is a non-empty list; a number or null raises |
| AICorrectionHandler.NormaliseFailsOnward | modules/nutrition/ai_correction_handler.py:293-299 | once one component raises during normalisation, the whole merge raises |
| AICorrectionHandler.NormalisedComponent | modules/nutrition/ai_correction_handler.py:293-299 | a normalised component has its weight and energy rounded to whole numbers, its macros to a tenth, and confidence 0.7 unless the reply gives one |
| AICorrectionHandler.NormaliseAllPointwise | modules/nutrition/ai_correction_handler.py:293-299 | normalisation succeeds exactly when every component normalises, and then gives each component's normal form in order |
| AICorrectionHandler.MergeCorrection | modules/nutrition/ai_correction_handler.py:282-325 | the merge loop gives the merged analysis of the original and the reply |
| AICorrectionHandler.MergeKeepsOtherKeys | modules/nutrition/ai_correction_handler.py:290-323 | the merge keeps the original's warnings, detailed analysis, recommendations, portion advice and every key the reply does not set |
| AICorrectionHandler.MergedTotalsRounded | modules/nutrition/ai_correction_handler.py:302-313 | merged weight and energy are rounded to whole numbers, macros to a tenth, and the health score comes from the reply, else the original, else 5 |
| AICorrectionHandler.MergedPer100g | modules/nutrition/ai_correction_handler.py:307-309 | without energy per 100 g in the reply, it is worked out from the merged totals, and is 0 without weight |
| AICorrectionHandler.ApplyCorrection | modules/nutrition/ai_correction_handler.py:29-68 | the correction outcome is the one the original's components and the reply determine (`AICorrectionHandler.OutcomeShape` and `AICorrectionHandler.OutcomeOfReply` state what that is) |
| AICorrectionHandler.OutcomeShape | modules/nutrition/ai_correction_handler.py:29-68 | success exactly when an analysis is returned and exactly when there is no error; a component without a key the prompt reads gives the error message; otherwise no reply gives the no-result message; success only for a buildable prompt and a valid reply (the outcome for each reply is `AICorrectionHandler.OutcomeOfReply`) |
| AICorrectionHandler.OutcomeOfReply | modules/nutrition/ai_correction_handler.py:53-64 | with a buildable prompt: a null reply gives the no-result message; an object failing the check gives the incorrect-data message; a valid reply gives success with exactly the merged analysis and no message, or the error message when the merge raises |
| AICorrectionHandler.MissingPromptKeyFails | modules/nutrition/ai_correction_handler.py:148-153 | a component of the original without `name`, `weight_g`, `calories`, `protein_g`, `fat_g` or `carbs_g` makes the prompt raise, so the correction fails with the error message whatever the reply |
| PhotoAnalyzer.EnsureRequiredFields | modules/nutrition/photo_analyzer.py:254-277 | the loop over the required fields gives the analysis with every missing field set to its default |
| PhotoAnalyzer.FillStep | modules/nutrition/photo_analyzer.py:272-275 | setting one default fills that field and leaves every other field as it was |
| PhotoAnalyzer.FillAllFills | modules/nutrition/photo_analyzer.py:254-277 | every listed field is filled from the original or its default; unlisted fields and other keys are unchanged |
| PhotoAnalyzer.EnsureRequiredFieldsFills | modules/nutrition/photo_analyzer.py:254-277 | after filling, every required field is present, each either kept or set to its default, other keys are unchanged, and the analysis has the fields the validator requires |
| PhotoAnalyzer.MockConsistent | modules/nutrition/photo_analyzer.py:279-313 | the mock analysis's totals are the sums over its components, and its energy per 100 g is the rounded share |
| PhotoAnalyzer.AnalyzePhoto | modules/nutrition/photo_analyzer.py:42-83 | the photo analysis answer is the photo result of the inputs |
| PhotoAnalyzer.MockIgnoresReply | modules/nutrition/photo_analyzer.py:52-54 | in mock mode the answer is the mock analysis whatever the model replied |
| PhotoAnalyzer.WarningsReplaced | modules/nutrition/photo_analyzer.py:56-83 | otherwise an answer exists exactly when the reply parses; it is the filled analysis, with its warnings replaced by the validator's when there are any |
| CalorieCalculator.CaloriesFromMacrosBounds | modules/nutrition/calorie_calculator.py:37-55 | for non-negative macros the result is the macro energy at 4, 9 and 4 kcal per gram with the fraction dropped |
| CalorieCalculator.CaloriesFromMacrosExample | tests/test_calorie_calculator.py:8-15 | 30 g protein, 25 g fat and 70 g carbohydrates give 625 kcal |
| CalorieCalculator.GramsWithinShare | modules/nutrition/calorie_calculator.py:57-84 | the grams of one macro never carry more energy than its share |
| CalorieCalculator.MacrosWithinBudget | modules/nutrition/calorie_calculator.py:57-84 | for shares summing to at most 100%, the macros are non-negative and their energy never exceeds the total |
| CalorieCalculator.SharesWithinTotal | modules/nutrition/calorie_calculator.py:57-84 | the energy shares are non-negative and, for percentages summing to at most 100, add up to at most the total |
| CalorieCalculator.MacrosRoundTrip | modules/nutrition/calorie_calculator.py:37-84 | the default 30/30/40 split turned back into energy never exceeds the energy it came from |
| CalorieCalculator.MacrosExample | tests/test_calorie_calculator.py:18-25 | 2000 kcal at 30/30/40 give 150 g protein, 66 g fat and 200 g carbohydrates |
| CalorieCalculator.CaloriesPer100gInverse | modules/nutrition/calorie_calculator.py:86-101 | for a positive weight, energy per 100 g times the weight over 100 gives back the total |
| CalorieCalculator.CaloriesPer100gExamples | tests/test_calorie_calculator.py:28-36 | 625 kcal in 250 g is 250 kcal per 100 g; no weight gives 0 |
| CalorieCalculator.DensityOf | modules/nutrition/calorie_calculator.py:19-30 | every category's energy density, the 200 default included, is positive |
| CalorieCalculator.EstimateWeightBounds | modules/nutrition/calorie_calculator.py:103-120 | for non-negative energy, the estimated weight is the largest whole weight whose energy at the category's density does not exceed it |
| CalorieCalculator.EstimateWeightExamples | tests/test_calorie_calculator.py:39-47 | 400 kcal of meat is 200 g, 300 kcal of vegetables 1000 g, and an unknown category counts as meat |
| CalorieCalculator.CalculateComponentTotals | modules/nutrition/calorie_calculator.py:122-157 | the summing loop gives the totals of the components |
| CalorieCalculator.TotalsDensity | modules/nutrition/calorie_calculator.py:145-157 | energy per 100 g is 0 without weight and otherwise the rounded share of energy per weight |
| CalorieCalculator.TotalsAppend | modules/nutrition/calorie_calculator.py:136-143 | one more component raises each total by its own value |
| CalorieCalculator.TotalsExample | tests/test_calorie_calculator.py:50-76 | the two test components give 280 g, 685 kcal, 32/28/72 g and between 240 and 250 kcal per 100 g |
| CalorieCalculator.HealthScoreRange | modules/nutrition/calorie_calculator.py:159-221 | the score lies between 1 and 10, is 5 for no energy, and is otherwise the raw score clamped to that range |
| CalorieCalculator.HealthScoreMonotone | modules/nutrition/calorie_calculator.py:210-217 | vegetables never lower the score and frying never raises it |
| CalorieCalculator.HealthScoreExamples | tests/test_calorie_calculator.py:79-101 | the balanced test meal with vegetables scores 9 and the fatty fried one scores 1 |
| CalorieCalculator.GenerateRecommendations | modules/nutrition/calorie_calculator.py:223-285 | the advice built line by line is the recommendation text of the inputs |
| CalorieCalculator.RecommendationsNonEmpty | tests/test_calorie_calculator.py:104-132 | the recommendation text is never empty |
| CalorieCalculator.FallbackExactly | modules/nutrition/calorie_calculator.py:223-285 | the generic line appears exactly when no goal-specific or macro advice applies; weight loss always ends with the vegetables and water lines and starts with the smaller portion line above 600 kcal |
| CalorieCalculator.PortionSuggestion | modules/nutrition/calorie_calculator.py:287-324 | a portion size is suggested exactly for weight loss above 700 kcal or muscle gain under 400 kcal; it shrinks the portion for weight loss, grows it for muscle gain, and is quoted in the advice |
| DishComparator.UserPer100g | modules/nutrition/dish_comparator.py:159-162 | the user's values per 100 g; no result exactly when the weight (100 g when absent) is zero, where the division raises |
| DishComparator.RelativeDifference | modules/nutrition/dish_comparator.py:171-174 | the relative difference is never negative and is zero exactly when the two values are equal |
| DishComparator.NutritionScoreRange | modules/nutrition/dish_comparator.py:151-182 | the nutrition similarity lies in [0, 1] and is 1 exactly when all four values per 100 g agree |
| DishComparator.MatchCount | modules/nutrition/dish_comparator.py:205-211 | no more tags are matched than there are tags |
| DishComparator.Fraction | modules/nutrition/dish_comparator.py:214-215 | the share of matched tags lies in [0, 1], is 1 exactly when all are matched and 0 exactly when none is |
| DishComparator.ComponentSimilarity | modules/nutrition/dish_comparator.py:184-215 | the loop over tags and components computes the component score: the share of tags some component's name matches, 0.5 without tags or components |
| DishComparator.AnyComponentFor | modules/nutrition/dish_comparator.py:207-211 | the inner loop finds a match exactly when some component's name contains one of the tag's keywords |
| DishComparator.ComponentScoreRange | modules/nutrition/dish_comparator.py:184-215 | the component score lies in [0, 1] and, with tags and components, is the matched share |
| DishComparator.MatchCountFull | modules/nutrition/dish_comparator.py:201-215 | every tag is matched exactly when the count equals the number of tags |
| DishComparator.SimilarityRange | modules/nutrition/dish_comparator.py:115-145 | the weighted total of name, nutrition and component scores stays in [0, 1] when the name ratio does |
| DishComparator.FindSimilarDishes | modules/nutrition/dish_comparator.py:69-113 | the loop over typical dishes keeps the comparisons above the threshold, sorts them by score and cuts at the limit, as the specification function does; that function keeps exactly the dishes above 0.2 and returns min(limit, kept) of them |
| DishComparator.KeptAboveThreshold | modules/nutrition/dish_comparator.py:96-106 | every kept comparison scores above 0.2, is of a known dish and carries that dish's similarity |
| DishComparator.SimilarDishesProperties | modules/nutrition/dish_comparator.py:69-113 | the search fails exactly for a zero weight with dishes to compare; otherwise the result is sorted by descending score, no longer than the limit, and holds only dishes above 0.2; the converse and the count are `DishComparator.SimilarDishesComplete` |
| DishComparator.KeptLength | modules/nutrition/dish_comparator.py:96-106 | at most one comparison is kept per dish |
| DishComparator.KeptComplete | modules/nutrition/dish_comparator.py:96-106 | every dish whose comparison scores above 0.2 is kept, with that comparison |
| DishComparator.SimilarDishesComplete | modules/nutrition/dish_comparator.py:96-113 | the search returns min(limit, kept) comparisons; a limit that cuts nothing returns exactly the kept comparisons, so every dish above 0.2 is among the results |
| DishComparator.SimilarDishesBest | modules/nutrition/dish_comparator.py:108-113 | every returned dish scores at least as high as any kept dish the limit left out |
| DishComparator.CalculateDeviations | modules/nutrition/dish_comparator.py:273-330 | the deviations of the four metrics against the closest dish, failing exactly where the weight is zero |
| DishComparator.DeviationsShape | modules/nutrition/dish_comparator.py:273-330 | four deviations for calories, protein, fat and carbohydrates, each with the rounded user value and a percentage that is 0 for a non-positive typical value and otherwise the relative difference within rounding |
| DishComparator.DeviationOfShape | modules/nutrition/dish_comparator.py:282-292 | one deviation keeps its metric and typical value, rounds the user value to within 0.05, and has a percentage of 0 when the typical value is not positive and otherwise the relative difference within 0.05 |
| DishComparator.WithinRange | modules/nutrition/dish_comparator.py:342-345 | no more deviations are within 20% than there are deviations |
| DishComparator.RealismRange | modules/nutrition/dish_comparator.py:332-352 | the realism score lies in [0, 1] for a similarity score in [0, 1] |
| DishComparator.GenerateWarnings | modules/nutrition/dish_comparator.py:354-378 | the loop over deviations produces the warnings of the specification function |
| DishComparator.WarningsPerLargeDeviation | modules/nutrition/dish_comparator.py:354-378 | one warning per deviation of more than 30%, in order, and no other |
| DishComparator.RealismReportOf | modules/nutrition/dish_comparator.py:231-271 | without similar dishes the score is 0.5 with the one "no similar dishes" warning; otherwise the closest match is the first similar dish, with its four deviations and their warnings |
| DishComparator.AdjustHealthScoreRange | modules/nutrition/dish_comparator.py:380-418 | without similar dishes the score is kept; with them it lies in [1, 10]; a weak match keeps a score already in [1, 10], and a match above 0.5 lands between the two scores, less than 1 below the lower one because of the truncation |
| DishComparator.Hits | modules/nutrition/dish_comparator.py:438 | a category cannot hit more keywords than it has |
| DishComparator.BestBounds | modules/nutrition/dish_comparator.py:436-446 | the chosen category hits at least as many keywords as every category |
| DishComparator.BestIsFirstMaximum | modules/nutrition/dish_comparator.py:436-446 | with no hits the category is home cooking; otherwise it is the first category with the most hits |
| DishComparator.Names | modules/nutrition/dish_comparator.py:431-433 | one name per component |
| DishComparator.DetectDishCategoryChoice | modules/nutrition/dish_comparator.py:420-446 | the detected category is home cooking when no keyword of any category appears, otherwise a category with the most keyword hits |
| DishComparator.Flagged | modules/nutrition/dish_comparator.py:462-465 | no more marker groups are flagged than there are groups |
| DishComparator.ContextScoreRange | modules/nutrition/dish_comparator.py:448-472 | the context score lies in [0, 1] and is 1 for components that show no marker |
| Validator.ShareWarnings | validator.py:140-150 | one macro's share yields at most one verdict |
| Validator.Deduplicate | validator.py:64-65 | the merged warnings hold every text they held before, each exactly once |
| Validator.FoodAnalysisValidator.constructor | validator.py:28-29 | a validator starts with no warnings |
| Validator.FoodAnalysisValidator.CheckMinimumCalories | validator.py:71-84 | appends the low-calorie warning of the data to the list and keeps the rest |
| Validator.FoodAnalysisValidator.CheckMacrosConsistency | validator.py:85-108 | appends the macro-mismatch warning of the data to the list and keeps the rest |
| Validator.FoodAnalysisValidator.CheckCalorieDensity | validator.py:109-123 | appends the density warning of the data to the list and keeps the rest |
| Validator.FoodAnalysisValidator.CheckShare | validator.py:140-150 | appends the verdict on one macro's share to the list and keeps the rest |
| Validator.FoodAnalysisValidator.CheckMacroRatios | validator.py:124-176 | appends the share verdicts of protein, fat and carbohydrates, in that order |
| Validator.FoodAnalysisValidator.CheckComponents | validator.py:177-202 | appends the components warnings of the data to the list and keeps the rest |
| Validator.FoodAnalysisValidator.Validate | validator.py:31-70 | the validator's warnings are those of the five checks in order; the dictionary changes only in its warnings, which hold the old ones and the rendered new ones, each once |
| Validator.LowCaloriesReported | validator.py:71-84 | an energy below the 400 kcal lunch minimum is always reported, and a low-calorie warning appears only then |
| Validator.MismatchExactly | validator.py:85-108 | a mismatch is reported exactly when the stated energy differs from the macros' energy by more than 15% |
| Validator.DensityBands | validator.py:109-123 | below 50 kcal per 100 g the density is too low, above 400 too high, and between them no warning |
| Validator.RatioVerdicts | validator.py:124-176 | no energy gives no ratio warning; otherwise at most three, and never both too low and too high for one macro |
| Validator.ShareOfOwnMacro | validator.py:140-175 | every share verdict names the macro it was computed for |
| Validator.ComponentsVerdicts | validator.py:177-202 | no components gives exactly the one warning; the bread warning appears exactly for components without bread in a meal over 600 kcal |
| StateMachine.TransitionRules | core/state_machine.py:38-95 | the transition table read as rules: from idle to every state but idle, waiting-correction and logging-workout; from any other state back to idle; and the four steps of the photo flow; nothing else |
| StateMachine.TableShape | core/state_machine.py:41-90 | every state except idle may return to idle, no state may stay where it is, and logging-workout is never a target |
| StateMachine.LoggingWorkoutUnreachable | core/state_machine.py:41-95 | a path of valid transitions that does not start in logging-workout never reaches it |
| StateMachine.PinnedTransitions | tests/test_state_machine.py:137-147 | the four valid and two invalid transitions the tests assert |
| StateMachine.StateManager.constructor | core/state_machine.py:101-106 | a manager starts with empty state and session caches in front of the users table |
| StateMachine.StateManager.GetState | core/state_machine.py:108-122 | the cached state, else the stored one (now cached), else idle for an unknown user; no user's state changes |
| StateMachine.StateManager.SetState | core/state_machine.py:124-144 | refused exactly when validation is asked for and the transition is not in the table; otherwise the cache and a stored row take the new state; no other user's state changes |
| StateMachine.StateManager.ResetState | core/state_machine.py:146-148 | the user is idle afterwards, whatever the state before; no other user's state changes |
| StateMachine.StateManager.GetSessionData | core/state_machine.py:150-152 | session data is found exactly for a user with a cache entry |
| StateMachine.StateManager.SetSessionData | core/state_machine.py:154-157 | the user's session data becomes the given data and every other user's is kept |
| StateMachine.StateManager.ClearSessionData | core/state_machine.py:159-163 | the user has no session data afterwards, a user without data leaves the cache as it was, and every other user's is kept |
| StateMachine.StateManager.IsInState | core/state_machine.py:165-168 | true exactly when the user's current state is one of those given |
| StateMachine.StateManager.RequireState | core/state_machine.py:170-179 | true exactly when the user's current state is one of those required |
| SessionManager.PriorCorrections | core/session_manager.py:92-101 | the earlier corrections: none for a NULL column, the stored list as it is, and none for text that does not decode |
| SessionManager.SessionManager.constructor | core/session_manager.py:15-17 | a manager starts with no sessions, sharing the given state manager |
| SessionManager.SessionManager.GetSession | core/session_manager.py:46-48 | a session is found exactly when its id is in the table |
| SessionManager.SessionManager.LatestActiveIn | core/database.py:408-427 | the newest session of the user that is not completed and not expired, or none when no such session exists |
| SessionManager.SessionManager.GetActiveSession | core/session_manager.py:50-60 | the cached session when it is not completed, else the newest active one of the user; none only when the user has no active session |
| SessionManager.SessionManager.GetCurrentAnalysis | core/session_manager.py:74-83 | none for an unknown session; the corrected analysis when it is non-empty, else the initial one |
| SessionManager.SessionManager.GetCorrectionsCount | core/session_manager.py:141-146 | 0 without cached data, else the cached counter (0 when absent) |
| SessionManager.SessionManager.CreateSession | core/session_manager.py:23-44 | a new pending session "session_" plus the token, expiring in 30 minutes, appended to the table; the cache holds its id, photo, time and a zero counter, and it is the user's active session |
| SessionManager.SessionManager.SaveInitialAnalysis | core/session_manager.py:66-72 | the session takes the analysis as its initial one and the pending status; nothing else changes |
| SessionManager.SessionManager.SaveCorrection | core/session_manager.py:85-114 | false for an unknown session; otherwise one entry is appended to the earlier corrections, the counter is their new number, and a non-empty corrected analysis becomes the current one |
| SessionManager.SessionManager.CompleteSession | core/session_manager.py:116-123 | the session is completed with its final analysis and confirmation time, and is no longer anyone's active session |
| SessionManager.SessionManager.CancelSession | core/session_manager.py:125-135 | false exactly when the user has no active session; otherwise that session is cancelled and the user's cache entry is cleared |
| SessionManager.SessionManager.CleanupExpired | core/database.py:452-464 | exactly the sessions expired before now are deleted, the others kept unchanged, and their number is returned |
| SessionManager.SessionManager.IncrementCorrections | core/session_manager.py:148-153 | with non-empty cached data the counter goes up by one; with none or an empty dictionary the cache is unchanged; other users are untouched |
| UserManager.BmrByGender | core/user_manager.py:76-80 | the male formula gives 166 kcal more than the female one for the same body, every other gender text takes the female formula, and the case of the text does not matter |
| UserManager.MaleExamples | core/user_manager.py:77 | "Male", "МУЖСКОЙ" and "М" select the male formula |
| UserManager.FemaleExamples | core/user_manager.py:77-80 | "female" and "ж" select the female formula |
| UserManager.TruncMonotone | core/user_manager.py:86-94 | truncation toward zero never reverses an order |
| UserManager.GoalOrdering | core/user_manager.py:85-94 | the weight-loss target is never above the maintenance one and the muscle-gain target never below it; for an expenditure of at least 500 kcal they are exactly 500 below and 300 above |
| UserManager.DailyCaloriesExample | core/user_manager.py:73-94 | a man of 80 kg, 180 cm and 30 years: 1780 kcal basal, 2759 to maintain, 2259 to lose weight, 3059 to gain muscle |
| UserManager.GoalMacrosWithinTarget | core/user_manager.py:53-56 | fat takes at most a quarter of a non-negative target, and the three goals together come within 4 kcal of the target without exceeding it whenever protein and fat leave room |
| UserManager.GoalMacrosExample | core/user_manager.py:53-56 | the 80 kg man aiming at 2259 kcal gets 160 g protein, 62 g fat and 265 g carbohydrates |
| UserManager.UserManager.constructor | core/user_manager.py:13-14 | the manager works on the given users table |
| UserManager.UserManager.GetOrCreateUser | core/user_manager.py:16-26 | the returned row is the user's stored row; an existing user leaves the table unchanged, a new one is inserted with empty profile fields |
| UserManager.UserManager.IsRegistered | core/user_manager.py:28-39 | registered exactly when the user exists with a goal, a current weight and a target weight |
| UserManager.UserManager.SetGoals | core/user_manager.py:45-71 | the row takes the profile, the computed energy target and the macro goals derived from it, and the user then counts as registered; an unknown user leaves the table unchanged |
| UserManager.UserManager.UpdateWeight | core/user_manager.py:132-134 | only the current weight of an existing user changes |
| UserManager.UserManager.DailyProgressAsWritten | core/user_manager.py:96-130 | an empty report exactly for an unknown user, and a TypeError exactly for a known user whose energy target is NULL |
| UserManager.UserManager.DailyProgress | core/user_manager.py:96-130 | no report exactly for an unknown user; a missing energy target counts as 0 |
| UserManager.UserManager.ProgressWithoutGoalsRaises | core/user_manager.py:115-116 | a user who was created but never set goals makes the report raise, where the corrected report shows minus what was eaten as remaining |
| UserManager.UserManager.DailyProgressFacts | core/user_manager.py:108-130 | what remains is the target less what was eaten, the meal count is the number of meals, each macro total grows by an added meal's share, and the corrected report agrees with the written one wherever that one does not raise |
| BackendUtils.PeriodDays | backend_api/utils.py:54-61 | a length exactly for "week", "month" and "year" |
| BackendUtils.CalculateDateRange | backend_api/utils.py:42-63 | a range ending now whose length is the period's days, or the ValueError exactly for an unknown period |
| BackendUtils.DateRangeLengths | backend_api/utils.py:54-61 | a week, a month and a year are 7, 30 and 365 days back from now; "day" and "Week" are refused |
| BackendUtils.ProgressPercentage | backend_api/utils.py:66-80 | 0 for a non-positive goal, else the share of the goal in percent within the rounding to one decimal |
| BackendUtils.ProgressPercentageFacts | backend_api/utils.py:66-80 | eating the goal gives 100 and nothing gives 0, eating more never gives less, and a non-negative amount never gives a negative percentage |
| BackendUtils.MacrosFromIngredients | backend_api/utils.py:83-103 | each total is the sum over the ingredients, within the rounding to one decimal |
| BackendUtils.SumOfAppend | backend_api/utils.py:93-96 | the total over two lists of ingredients is the sum of their totals |
| BackendUtils.MacrosFromIngredientsFacts | backend_api/utils.py:93-103 | no ingredients give all zeros, and an ingredient without a key adds nothing to that key's total |
| BackendUtils.ValidateNutritionDataMeaning | backend_api/utils.py:106-127 | for non-negative macro energy the data is consistent exactly when the stated energy is within a tenth of it; negative macro energy is never consistent |
| BackendUtils.ValidateNutritionDataExamples | backend_api/utils.py:119-127 | 20 g protein, 10 g fat and 30 g carbohydrates make 290 kcal: 261 and 319 pass, 260 and 320 do not |
| Keyboards.ParseCallbackData | utils/keyboards.py:108-120 | the action holds no '_' and, when the data has one, the data is action, '_' and value; without one the value is empty |
| Keyboards.BuildCallbackData | utils/keyboards.py:123-133 | action '_' value, or the action alone for an empty value |
| Keyboards.ParseAt | utils/keyboards.py:117-119 | the split happens at the first '_' |
| Keyboards.ParseBuildRoundTrip | utils/keyboards.py:108-133 | parsing built data gives the pair back whenever the action holds no '_' |
| Keyboards.BuildParseRoundTrip | utils/keyboards.py:108-133 | building parsed data gives it back except exactly when its first '_' is its last character, which is then lost |
| Keyboards.CallbackExamples | utils/keyboards.py:112-130 | the documented examples and the lossy "a_" |
| MealConfirmation.Confidences | handlers/meal_confirmation.py:159 | one confidence per component, 0.5 where a component has none |
| MealConfirmation.SumBetween | handlers/meal_confirmation.py:160 | the sum of values between two bounds lies between the bounds times their number |
| MealConfirmation.AvgConfidenceBounds | handlers/meal_confirmation.py:153-160 | 0 without components, else between the smallest and largest confidence, with 0.5 for a component without one |
| MealConfirmation.ConfidencesWithin | handlers/meal_confirmation.py:159 | every listed confidence lies within bounds that hold the stated confidences and 0.5 |
| MealConfirmation.AvgConfidenceExample | handlers/meal_confirmation.py:153-160 | components at 0.9 and without a confidence average 0.7 |
| MealConfirmation.Column | handlers/meal_confirmation.py:175-178 | one value per meal |
| MealConfirmation.AfterMealsTotals | handlers/meal_confirmation.py:163-191 | after a day of meals the record counts every meal and holds the sum of their energy and protein |
| MealConfirmation.DailyStatsTable.constructor | handlers/meal_confirmation.py:168 | the table holds the given rows |
| MealConfirmation.DailyStatsTable.Get | handlers/meal_confirmation.py:168 | a record is found exactly for a stored user and day |
| MealConfirmation.DailyStatsTable.UpdateDailyStats | handlers/meal_confirmation.py:163-191 | the day's record grows by the meal and counts one more meal, or is created with a count of 1; every other row is kept |
| MealConfirmation.PercentBand | handlers/meal_confirmation.py:208 | for a positive target, a percentage bound is the same bound on the energy eaten |
| MealConfirmation.CheckGoalsBands | handlers/meal_confirmation.py:206-240 | achieved from 90% to 110% of the target, approaching from 80% to 90% with a positive remainder, over above 110% with a positive excess, silent below 80% and for a non-positive target |
| MealConfirmation.CheckGoalsMissing | handlers/meal_confirmation.py:203-208 | no message without a user or a day's record, and a TypeError for a NULL target |
| TtlCache.Lookup | backup/handlers.py:39-49 | a result exactly for a key whose entry is younger than the timeout, and then it is that entry's result |
| TtlCache.AfterLookup | backup/handlers.py:41-48 | an expired entry for the key is removed and every other entry kept; a hit or a missing key leaves the cache as it was |
| TtlCache.SaveThenLookup | backup/handlers.py:39-57 | a saved result is found exactly while younger than the timeout, other keys answer as before, and an expired entry never becomes fresh again |
| TtlCache.AnalysisCache.constructor | backup/handlers.py:28 | the cache starts empty with the given timeout |
| TtlCache.AnalysisCache.GetFromCache | backup/handlers.py:39-49 | answers as the lookup does and leaves the cache as the lookup does |
| TtlCache.AnalysisCache.SaveToCache | backup/handlers.py:52-58 | the key holds the result stamped now, other keys are untouched, and for a positive timeout the result is found at once |

## Left out

- The vision, language-model and speech-to-text requests are not modelled, and neither are `api_client.py`, the ffmpeg audio extraction or image compression. Each outcome is a parameter of the operation that uses it, with `None` for a failed request.
- OpenCV decoding, the Laplacian, brightness, contrast and frame-difference metrics, and `_enhance_frame` are not modelled. A frame is the four numbers its score is computed from.
- `json.loads` is the parameter `parse`, and JSON booleans are not part of `Json.Value`.
- `difflib.SequenceMatcher(...).ratio()` is the parameter `ratio`. `DishComparator.SimilarityRange` assumes it lies in [0, 1], as difflib documents.
- Python's regular-expression engine is not modelled. Each pattern the correction detector uses is written out as a matcher that follows the engine's search order.
- `str.lower` covers ASCII and the basic Cyrillic block only. Digits are ASCII. `int()` and `float()` of text accept plain decimal forms only: no underscores, exponents, `inf` or `nan`.
- Floating point is modelled as exact real arithmetic.
  - `int()` is truncation toward zero and `round()` is half-to-even on the exact value.
  - Results that IEEE rounding would tip across a boundary are not modelled.
  - The same applies to `:.0f` formatting in the deviation warnings, which is taken as half-to-even.
- A key holding JSON `null` is treated like a missing key in `Food.Analysis`, in `Food.FrameEvidence` and in `BackendUtils.Ingredient`. So `.get(key, default)` yields the default where Python would yield `None` and usually raise later. One example is a `health_score` of `null` in the dish comparison. Another is an ingredient whose `calories` is `null`: the model counts 0 where `sum` in `calculate_macros_from_ingredients` would raise. Database columns that can be NULL are kept apart where it matters: user goals, the goal message.
- The numeric fields of `Food.Analysis`, `Food.Component` and `Food.FrameEvidence` hold a number or nothing. The reply parser handed to the photo and frame analyses (`parse`) can only reject a reply with a non-numeric value, such as `"weight_g": "250"`, or drop that key. In the photo analysis the source raises TypeError in the validator's comparisons, and `analyze_photo` answers None. That is the model's answer when `parse` rejects the reply. In the video analysis the value passes the frame analysis, and `aggregate` raises on `weight_g * confidence`, so the whole aggregation fails. The model cannot express that failure: it can only drop the frame or the key.
- `actual_dish` in a frame reply is read as a string or nothing (`Food.FrameEvidence.actualDish`). The source adds a `null` or numeric value to its set of dishes too.
- EvidenceAggregator.ConflictIffDisagreement: frames that name a dish beside one whose `actual_dish` is `null` or not a string count no conflict here. In the source that value makes `', '.join` raise TypeError, and the whole aggregation fails.
- A non-string `dish_name` or `correction_applied` in a model reply is stored as absent. A component whose name is `null` is compared as the empty name.
- Exception texts (`str(e)`) are not modelled. A failure carries a fixed message kind.
- Warning texts that interpolate formatted numbers are values carrying those numbers, or the parameter `render` where they land in a dictionary. Their exact wording is not modelled.
- The rendered text of the goal messages (`_check_goals_and_get_message`) is not modelled. The message is the band with its numbers.
- `confirm_and_save_meal` is Telegram and database orchestration and is not part of this model. Nor are the chat handlers, `format_analysis_message`, the formatters or the keyboard builders.
- The SQL of core/database.py is not part of this model. Tables are maps in the classes that use them.
  - The active-session query takes insertion order as `created_at` order, so two sessions with the same timestamp are not told apart.
  - A stored state that is not a `UserState` value would raise in the source. It cannot occur here.
- `ExpiringDict` expiry and its 10000-entry bound are not modelled: the state and session caches never expire.
- Session ids use a `token` parameter instead of `uuid4`, and times come from the `now`/`stamp` parameters. The MD5 key of the legacy cache is not modelled: keys arrive as strings.
- `update_profile`, `update_session` and `get_profile_summary` are not modelled. The first two are pass-throughs to the database and the last is message text.
- `generate_unique_filename`, `format_date_for_db` and `parse_date_from_string` are not modelled. They only format uuids and dates.
- The tags of a typical dish arrive already decoded. A tags text that fails to decode (source: an empty list) is not modelled.
- Validator.Deduplicate: states the same texts each once, but not their order, because Python's `list(set(...))` leaves the order to the set. The method keeps first occurrences.
- BackendUtils.ProgressPercentage: bounds the distance to the exact percentage by 0.05 instead of naming the rounded value. `BackendUtils.ProgressPercentageFacts` pins the exact values that matter.
- BackendUtils.MacrosFromIngredients: bounds each total's rounding error by 0.05 instead of naming the rounded sum.
- JsonResponse.StripLineComments: its own contract only bounds the length. What the substitution removes is stated by `JsonResponse.LineCommentRemoved` and `JsonResponse.LinePlainKept`.
- JsonResponse.StripBlockComments: its own contract only bounds the length. What the substitution removes is stated by `JsonResponse.BlockCommentRemoved` and `JsonResponse.BlockPlainKept`.
- JsonResponse.StripTrailingCommas: its own contract only bounds the length. What the substitution removes is stated by `JsonResponse.TrailingCommaRemoved` and `JsonResponse.CommaPlainKept`.
- DishComparator.AdjustHealthScoreRange: for a match above 0.5 it allows the truncated score to fall up to 1 below the lower of the two scores. It does not state the exact weighted value.

Where the repository's written description and its code disagree, the model follows the code:
- a weight change of a 150 g, 390 kcal dish to "500г" truncates per component, giving 499 g and 1299 kcal;
- the audio bonus needs exact equality of names, not a substring;
- a frame that lists a component twice votes for it twice.

## Findings

| source | as written | input that shows it | evidently intended | confidence | as-written member | corrected member |
|---|---|---|---|---|---|---|
| modules/nutrition/correction_parser.py:121-125 | the detector reports an addition without a weight as `weight: None`, so `details.get('weight', 100)` returns `None` and `None * 2` raises TypeError; the addition fails | "добавь огурец" | an addition without a weight uses the 100 g default: 200 kcal, 7/6/27 g | high; not executed | CorrectionParser.AddCucumberFails | CorrectionParser.IntendedAddSucceeds |
| core/user_manager.py:115-116 | for a user who never set goals the `daily_calories` column is NULL, so `user.get('daily_calories', 0)` returns `None` and `None - consumed_calories` raises TypeError | a user created by `get_or_create_user` asks for the daily progress | the target defaults to 0 and the remainder is minus what was eaten | medium; not executed | UserManager.UserManager.ProgressWithoutGoalsRaises | UserManager.UserManager.DailyProgressFacts |
