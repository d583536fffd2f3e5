/**
 * Choosing the frames of a video note worth sending to the vision model
 * (modules/video_analysis/keyframe_extractor.py).
 *
 * The first one to three seconds are skipped, every later frame is scored
 * for sharpness, brightness, texture and change from the frame before, the
 * best `target_frames` are kept and put back into the order they were shot
 * in. Decoding and the image metrics belong to OpenCV: here a frame is the
 * four numbers the score is computed from, and a clip is what the capture
 * reports and decodes.
 */
module KeyframeExtractor {
  import opened Common
  import opened Sorting

  /**
   * The measurements of one decoded frame: variance of the Laplacian, mean
   * and standard deviation of the grey levels, and the mean absolute
   * difference to the frame decoded just before it.
   */
  datatype FrameMetrics = FrameMetrics(sharpness: real, brightness: real, texture: real, diff: real)

  /** What the capture gives: nothing when it cannot be opened, else its counts and frames. */
  datatype Capture = Unopened | Opened(frameCount: int, fps: real, frames: seq<FrameMetrics>)

  datatype Scored = Scored(index: nat, score: real)

  /** `total_frames / fps if fps > 0 else 0`. */
  function Duration(frameCount: int, fps: real): (d: real)
    ensures fps <= 0.0 ==> d == 0.0
    ensures fps > 0.0 ==> d * fps == frameCount as real
  {
    if fps > 0.0 then frameCount as real / fps else 0.0
  }

  /** One second for clips under 5 s, two under 10 s, three otherwise. */
  function SkipSeconds(duration: real): (s: real)
    ensures s == 1.0 <==> duration < 5.0
    ensures s == 2.0 <==> 5.0 <= duration < 10.0
    ensures s == 3.0 <==> duration >= 10.0
  {
    if duration < 5.0 then 1.0 else if duration < 10.0 then 2.0 else 3.0
  }

  /** `int(skip_seconds * fps)`. */
  function SkipFrames(c: Capture): int
    requires c.Opened?
  {
    Trunc(SkipSeconds(Duration(c.frameCount, c.fps)) * c.fps)
  }

  /** `_calculate_frame_score`; `hasPrevious` is false for the first frame scored. */
  function FrameScore(m: FrameMetrics, hasPrevious: bool): real
  {
    var sharpnessScore := Min(m.sharpness / 500.0, 1.0);
    var brightnessScore := 1.0 - Abs(m.brightness - 128.0) / 128.0;
    var textureScore := Min(m.texture / 50.0, 1.0);
    var changeScore := if hasPrevious then Min(m.diff / 25.0, 1.0) else 0.5;
    sharpnessScore * 0.4 + brightnessScore * 0.2 + textureScore * 0.2 + changeScore * 0.2
  }

  /** For metrics a real frame can have, the score lies in [0, 1]. */
  lemma ScoreInUnitRange(m: FrameMetrics, hasPrevious: bool)
    requires m.sharpness >= 0.0 && m.texture >= 0.0 && m.diff >= 0.0
    requires 0.0 <= m.brightness <= 256.0
    ensures 0.0 <= FrameScore(m, hasPrevious) <= 1.0
  {
  }

  /** Position of the first frame that is scored. */
  function FirstScored(frameCount: nat, skip: int): (first: nat)
    ensures first <= frameCount
    ensures skip <= 0 ==> first == 0
    ensures 0 < skip <= frameCount ==> first == skip
  {
    if skip <= 0 then 0 else if skip < frameCount then skip else frameCount
  }

  /** The `(frame_idx, score)` pairs the reading loop collects, in reading order. */
  function ScoredFrames(frames: seq<FrameMetrics>, skip: int): (r: seq<Scored>)
    ensures |r| == |frames| - FirstScored(|frames|, skip)
    ensures forall k :: 0 <= k < |r| ==> r[k].index == FirstScored(|frames|, skip) + k
  {
    var first := FirstScored(|frames|, skip);
    seq(|frames| - first, k requires 0 <= k < |frames| - first =>
      Scored(first + k, FrameScore(frames[first + k], k > 0)))
  }

  function ByScore(s: Scored): real { s.score }

  function ByIndexAscending(s: Scored): real { -(s.index as real) }

  /** Top `target` by score (ties in reading order), then back into frame order. */
  function SelectBest(scored: seq<Scored>, target: int): seq<Scored>
  {
    SortDescending(Take(SortDescending(scored, ByScore), target), ByIndexAscending)
  }

  function Indices(ss: seq<Scored>): (r: seq<nat>)
    ensures |r| == |ss| && forall k :: 0 <= k < |ss| ==> r[k] == ss[k].index
  {
    seq(|ss|, k requires 0 <= k < |ss| => ss[k].index)
  }

  /** The frames `process` returns, by their position in the clip. */
  function Keyframes(c: Capture, target: int): seq<nat>
  {
    if c.Unopened? then []
    else
      var scored := ScoredFrames(c.frames, SkipFrames(c));
      if |scored| == 0 then [] else Indices(SelectBest(scored, target))
  }

  /** `process`: skip, score while reading, rank, keep the best, restore order. */
  method Process(c: Capture, target: int) returns (selected: seq<nat>)
    ensures selected == Keyframes(c, target)
  {
    if c.Unopened? {
      return [];
    }
    var skip := SkipFrames(c);
    var frames := c.frames;
    ghost var first := FirstScored(|frames|, skip);
    var scored: seq<Scored> := [];
    var hasPrevious := false;
    var frameIdx := 0;
    while frameIdx < |frames|
      invariant 0 <= frameIdx <= |frames|
      invariant |scored| == if frameIdx <= first then 0 else frameIdx - first
      invariant hasPrevious <==> |scored| > 0
      invariant forall k :: 0 <= k < |scored| ==>
        scored[k] == Scored(first + k, FrameScore(frames[first + k], k > 0))
    {
      assert frameIdx < skip <==> frameIdx < first;
      if frameIdx < skip {
        frameIdx := frameIdx + 1;
        continue;
      }
      var score := FrameScore(frames[frameIdx], hasPrevious);
      scored := scored + [Scored(frameIdx, score)];
      hasPrevious := true;
      frameIdx := frameIdx + 1;
    }
    assert scored == ScoredFrames(frames, skip);
    if |scored| == 0 {
      return [];
    }
    var ranked := SortDescending(scored, ByScore);
    var best := Take(ranked, target);
    best := SortDescending(best, ByIndexAscending);
    selected := Indices(best);
  }

  // ---------------------------------------------------------------------
  // What the selection promises
  // ---------------------------------------------------------------------

  /** Nothing inside the skip window is scored, and the first frame scored counts as half changed. */
  lemma ScoredFramesShape(frames: seq<FrameMetrics>, skip: int)
    ensures forall k :: 0 <= k < |ScoredFrames(frames, skip)| ==>
      var s := ScoredFrames(frames, skip)[k];
      skip <= s.index < |frames| && s.score == FrameScore(frames[s.index], k > 0)
    ensures |ScoredFrames(frames, skip)| > 0 ==>
      ScoredFrames(frames, skip)[0].score == FrameScore(frames[ScoredFrames(frames, skip)[0].index], false)
  {
  }

  lemma SelectedAreScored(scored: seq<Scored>, target: int, x: Scored)
    requires x in SelectBest(scored, target)
    ensures x in scored
  {
    var ranked := SortDescending(scored, ByScore);
    var top := Take(ranked, target);
    assert x in multiset(SortDescending(top, ByIndexAscending));
    assert x in multiset(top);
    assert top <= ranked;
    var k :| 0 <= k < |top| && top[k] == x;
    assert ranked[k] == x;
    assert x in multiset(ranked);
  }

  /** No key frame comes from the skip window or past the end of the clip. */
  lemma KeyframesOutsideSkipWindow(c: Capture, target: int)
    requires c.Opened?
    ensures forall i :: i in Keyframes(c, target) ==> SkipFrames(c) <= i < |c.frames|
  {
    var scored := ScoredFrames(c.frames, SkipFrames(c));
    if |scored| > 0 {
      var best := SelectBest(scored, target);
      forall i | i in Keyframes(c, target)
        ensures SkipFrames(c) <= i < |c.frames|
      {
        var k :| 0 <= k < |best| && Indices(best)[k] == i;
        SelectedAreScored(scored, target, best[k]);
        ScoredFramesShape(c.frames, SkipFrames(c));
      }
    }
  }

  /** As many frames as asked for, or all scored frames when there are fewer. */
  lemma KeyframesCount(c: Capture, target: nat)
    requires c.Opened?
    ensures var n := |ScoredFrames(c.frames, SkipFrames(c))|;
      |Keyframes(c, target)| == if target < n then target else n
  {
  }

  /** The key frames come out in the order they were shot in. */
  lemma KeyframesChronological(c: Capture, target: int)
    ensures forall i, j :: 0 <= i < j < |Keyframes(c, target)| ==>
      Keyframes(c, target)[i] <= Keyframes(c, target)[j]
  {
    if c.Opened? {
      var scored := ScoredFrames(c.frames, SkipFrames(c));
      if |scored| > 0 {
        var best := SelectBest(scored, target);
        forall i, j | 0 <= i < j < |best|
          ensures best[i].index <= best[j].index
        {
          assert ByIndexAscending(best[i]) >= ByIndexAscending(best[j]);
        }
      }
    }
  }

  lemma SelectionBeatsRest(scored: seq<Scored>, target: int, kept: Scored, dropped: Scored)
    requires kept in SelectBest(scored, target)
    requires dropped in scored && dropped !in SelectBest(scored, target)
    ensures kept.score >= dropped.score
  {
    var ranked := SortDescending(scored, ByScore);
    var top := Take(ranked, target);
    var best := SortDescending(top, ByIndexAscending);
    assert top == ranked[..|top|];
    assert kept in multiset(best);
    assert dropped !in multiset(best);
    assert dropped in multiset(scored);
    PrefixBeatsRest(ranked, ByScore, |top|, kept, dropped);
  }

  /** Every frame kept scores at least as high as every scored frame left out. */
  lemma KeyframesAreBest(c: Capture, target: int, kept: Scored, dropped: Scored)
    requires c.Opened?
    requires kept in SelectBest(ScoredFrames(c.frames, SkipFrames(c)), target)
    requires dropped in ScoredFrames(c.frames, SkipFrames(c))
    requires dropped !in SelectBest(ScoredFrames(c.frames, SkipFrames(c)), target)
    ensures kept.score >= dropped.score
  {
    SelectionBeatsRest(ScoredFrames(c.frames, SkipFrames(c)), target, kept, dropped);
  }
}
