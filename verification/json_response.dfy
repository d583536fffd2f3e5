/**
 * Extracting the JSON object from a language model's reply
 * (`_parse_json_response`, written out the same way in
 * modules/video_analysis/video_analyzer.py, modules/nutrition/ai_correction_handler.py
 * and modules/nutrition/photo_analyzer.py).
 *
 * The reply loses its Markdown fences, the text from the first '{' to the
 * last '}' is handed to the JSON parser, and when that fails the text is
 * cleaned of comments and trailing commas and parsed once more. The JSON
 * parser itself is the parameter `parse`: `None` is a decode error.
 */
module JsonResponse {
  import opened Common

  /** `content.replace('```json', '').replace('```', '')`. */
  function Unfence(content: string): string
  {
    Replace(Replace(content, "```json", ""), "```", "")
  }

  /**
   * `content[content.find('{'):content.rfind('}') + 1]`; `None` when either
   * brace is missing. A last '}' before the first '{' gives the empty slice.
   */
  function BraceSlice(u: string): (r: Option<string>)
    ensures r.None? <==> '{' !in u || '}' !in u
    ensures r.Some? && r.value != "" ==> r.value[0] == '{' && r.value[|r.value| - 1] == '}'
  {
    var start := IndexOf(u, "{", 0);
    var end := LastIndexOf(u, "}", |u|) + 1;
    CharFound(u, '{', start, 0);
    CharFoundLast(u, '}', end - 1);
    if start == -1 || end == 0 then None
    else if start < end then Some(u[start..end])
    else Some("")
  }

  lemma CharFound(u: string, c: char, r: int, from: nat)
    requires r == IndexOf(u, [c], from) && from == 0
    ensures r >= 0 <==> c in u
    ensures r >= 0 ==> r < |u| && u[r] == c && c !in u[..r]
  {
    IndexOfChar(u, c, 0);
  }

  lemma CharFoundLast(u: string, c: char, r: int)
    requires r == LastIndexOf(u, [c], |u|)
    ensures r >= 0 <==> c in u
    ensures r >= 0 ==> r < |u| && u[r] == c && c !in u[r + 1..]
  {
    LastIndexOfChar(u, c);
  }

  /** The slice is the text between the first '{' and the last '}' of the reply. */
  lemma BraceSliceBounds(pre: string, body: string, post: string)
    requires '{' !in pre && '}' !in post
    requires |body| >= 2 && body[0] == '{' && body[|body| - 1] == '}'
    ensures BraceSlice(pre + body + post) == Some(body)
  {
    var u := pre + body + post;
    var start := IndexOf(u, "{", 0);
    var end := LastIndexOf(u, "}", |u|) + 1;
    CharFound(u, '{', start, 0);
    CharFoundLast(u, '}', end - 1);
    assert u[|pre|] == '{';
    assert u[|pre| + |body| - 1] == '}';
    assert u[..|pre|] == pre;
    assert u[|pre| + |body|..] == post;
    assert start == |pre|;
    assert end == |pre| + |body|;
    assert u[start..end] == body;
  }

  /** Replacing leaves alone a prefix that holds no first character of the pattern. */
  lemma {:induction false} ReplaceSkips(a: string, b: string, pat: string, rep: string)
    requires |pat| > 0 && pat[0] !in a
    ensures Replace(a + b, pat, rep) == a + Replace(b, pat, rep)
    decreases |a|
  {
    if |a| > 0 {
      assert a[0] != pat[0];
      assert (a + b)[0] == a[0] && (a + b)[1..] == a[1..] + b;
      ReplaceStep(a + b, pat, rep);
      ReplaceSkips(a[1..], b, pat, rep);
      assert a == [a[0]] + a[1..];
    } else {
      assert a + b == b;
    }
  }

  /** A text whose first character cannot start the pattern keeps that character. */
  lemma ReplaceStep(s: string, pat: string, rep: string)
    requires |pat| > 0 && |s| > 0 && s[0] != pat[0]
    ensures Replace(s, pat, rep) == [s[0]] + Replace(s[1..], pat, rep)
  {
    if |s| >= |pat| {
      assert s[..|pat|][0] == s[0];
    }
  }

  /** A reply without backticks is not changed by removing the fences. */
  lemma UnfenceKeepsPlainText(x: string)
    requires '`' !in x
    ensures Unfence(x) == x
  {
    ReplaceSkips(x, "", "```json", "");
    assert x + "" == x;
    ReplaceSkips(x, "", "```", "");
  }

  /** A fenced reply `` ```json X``` `` loses exactly its fences. */
  lemma UnfenceStripsFences(x: string)
    requires '`' !in x
    ensures Unfence("```json" + x + "```") == x
  {
    var s := "```json" + x + "```";
    assert s[..7] == "```json";
    assert s[7..] == x + "```";
    ReplaceSkips(x, "```", "```json", "");
    assert Replace("```", "```json", "") == "```";
    assert Replace(s, "```json", "") == x + "```";
    ReplaceSkips(x, "```", "```", "");
    assert Replace("```", "```", "") == "" by {
      assert "```"[..3] == "```";
      assert "```"[3..] == "";
    }
    assert x + "" == x;
  }

  // ---------------------------------------------------------------------
  // The cleaning pass
  // ---------------------------------------------------------------------

  /** Two characters `a` `b` start at `i`. */
  predicate PairAt(s: string, i: nat, a: char, b: char)
  {
    i + 1 < |s| && s[i] == a && s[i + 1] == b
  }

  /**
   * `re.sub(r'//.*?\n', '\n', s)` from position `i`: a `//` runs to the
   * next newline, which is kept. A `//` with no newline after it matches
   * nowhere, and neither does any later one, so the rest is kept as is.
   */
  function StripLineComments(s: string, i: nat): (r: string)
    requires i <= |s|
    ensures |r| <= |s| - i
    decreases |s| - i
  {
    if i == |s| then ""
    else if PairAt(s, i, '/', '/') then
      var j := FindChar(s, '\n', i + 2);
      if j < 0 then s[i..] else "\n" + StripLineComments(s, j + 1)
    else
      [s[i]] + StripLineComments(s, i + 1)
  }

  /** Where the scan that starts at `i` resumes. */
  function LineNext(s: string, i: nat): (n: nat)
    requires i < |s|
    ensures i < n <= |s|
  {
    if !PairAt(s, i, '/', '/') then i + 1
    else
      var j := FindChar(s, '\n', i + 2);
      if j < 0 then |s| else j + 1
  }

  /** Removing comments keeps every line break: the lines of the reply stay where they were. */
  lemma {:induction false} LineCommentsKeepNewlines(s: string, i: nat)
    requires i <= |s|
    ensures Occurrences(StripLineComments(s, i), '\n') == Occurrences(s[i..], '\n')
    decreases |s| - i
  {
    if i < |s| {
      LineCommentsKeepNewlines(s, LineNext(s, i));
      NewlineStep(s, i);
    }
  }

  /** One step of the scan at `i`: if the count holds from where it resumes, it holds from `i`. */
  lemma NewlineStep(s: string, i: nat)
    requires i < |s|
    requires Occurrences(StripLineComments(s, LineNext(s, i)), '\n') == Occurrences(s[LineNext(s, i)..], '\n')
    ensures Occurrences(StripLineComments(s, i), '\n') == Occurrences(s[i..], '\n')
  {
    if !PairAt(s, i, '/', '/') {
      LineCharKept(s, i);
      CountAfterKeptChar(s, i, '\n', StripLineComments(s, i + 1));
    } else if FindChar(s, '\n', i + 2) < 0 {
      UnendedComment(s, i);
    } else {
      CommentStep(s, i);
    }
  }

  /** The step over a `//` comment that a newline ends. */
  lemma CommentStep(s: string, i: nat)
    requires i < |s| && PairAt(s, i, '/', '/') && FindChar(s, '\n', i + 2) >= 0
    requires Occurrences(StripLineComments(s, LineNext(s, i)), '\n') == Occurrences(s[LineNext(s, i)..], '\n')
    ensures Occurrences(StripLineComments(s, i), '\n') == Occurrences(s[i..], '\n')
  {
    var j := CommentRemoved(s, i);
    assert LineNext(s, i) == j + 1;
    NewlineCountOfComment(s, i, j);
    NewlineThenCount(StripLineComments(s, j + 1), s[i..], s[j + 1..]);
  }

  lemma NewlineThenCount(rest: string, whole: string, after: string)
    requires Occurrences(rest, '\n') == Occurrences(after, '\n')
    requires Occurrences(whole, '\n') == 1 + Occurrences(after, '\n')
    ensures Occurrences("\n" + rest, '\n') == Occurrences(whole, '\n')
  {
    OccurrencesAppend("\n", rest, '\n');
  }

  lemma LineCharKept(s: string, i: nat)
    requires i < |s| && !PairAt(s, i, '/', '/')
    ensures StripLineComments(s, i) == [s[i]] + StripLineComments(s, i + 1)
  {
  }

  /** A `//` with no newline after it: the rest stays. */
  lemma UnendedComment(s: string, i: nat)
    requires i < |s| && PairAt(s, i, '/', '/') && FindChar(s, '\n', i + 2) < 0
    ensures StripLineComments(s, i) == s[i..]
  {
  }

  /** A `//` up to the next newline becomes that newline. */
  lemma CommentRemoved(s: string, i: nat) returns (j: nat)
    requires i < |s| && PairAt(s, i, '/', '/') && FindChar(s, '\n', i + 2) >= 0
    ensures i + 2 <= j < |s| && s[j] == '\n' && forall q :: i + 2 <= q < j ==> s[q] != '\n'
    ensures StripLineComments(s, i) == "\n" + StripLineComments(s, j + 1)
  {
    j := FindChar(s, '\n', i + 2);
  }

  /** A comment running from `i` up to the newline at `j` holds no other newline. */
  lemma NewlineCountOfComment(s: string, i: nat, j: nat)
    requires i <= j < |s| && s[j] == '\n'
    requires PairAt(s, i, '/', '/') && forall q :: i + 2 <= q < j ==> s[q] != '\n'
    ensures Occurrences(s[i..], '\n') == 1 + Occurrences(s[j + 1..], '\n')
  {
    var comment := s[i..j];
    assert '\n' !in comment;
    OccurrencesZero(comment, '\n');
    SliceSplit(s, i, j);
    OccurrencesAppend(comment, s[j..], '\n');
    SuffixHead(s, j);
    OccurrencesAppend([s[j]], s[j + 1..], '\n');
  }

  lemma CountAfterKeptChar(s: string, i: nat, c: char, rest: string)
    requires i < |s| && Occurrences(rest, c) == Occurrences(s[i + 1..], c)
    ensures Occurrences([s[i]] + rest, c) == Occurrences(s[i..], c)
  {
    SuffixHead(s, i);
    OccurrencesAppend([s[i]], s[i + 1..], c);
    OccurrencesAppend([s[i]], rest, c);
  }

  /** Position of the first star-slash pair at or after `from`, or -1. */
  function FindBlockEnd(s: string, from: nat): (r: int)
    requires from <= |s|
    ensures r == -1 || (from <= r && PairAt(s, r, '*', '/'))
    decreases |s| - from
  {
    if from + 1 >= |s| then -1
    else if PairAt(s, from, '*', '/') then from
    else FindBlockEnd(s, from + 1)
  }

  /** `re.sub(r'/\*.*?\*\/', '', s, flags=re.DOTALL)` from position `i`. */
  function StripBlockComments(s: string, i: nat): (r: string)
    requires i <= |s|
    ensures |r| <= |s| - i
    decreases |s| - i
  {
    if i == |s| then ""
    else if PairAt(s, i, '/', '*') then
      var j := FindBlockEnd(s, i + 2);
      if j < 0 then s[i..] else StripBlockComments(s, j + 2)
    else
      [s[i]] + StripBlockComments(s, i + 1)
  }

  /** `re.sub(r',(\s*[}\]])', r'\1', s)` from position `i`: a comma before a closing bracket goes. */
  function StripTrailingCommas(s: string, i: nat): (r: string)
    requires i <= |s|
    ensures |r| <= |s| - i
    decreases |s| - i
  {
    if i == |s| then ""
    else if ClosesAfterComma(s, i) then
      var k := SkipSpaces(s, i + 1);
      s[i + 1..k + 1] + StripTrailingCommas(s, k + 1)
    else
      [s[i]] + StripTrailingCommas(s, i + 1)
  }

  /** At `i` stands a comma that only blanks separate from a closing bracket. */
  predicate ClosesAfterComma(s: string, i: nat)
    requires i < |s|
  {
    s[i] == ',' && SkipSpaces(s, i + 1) < |s| && (s[SkipSpaces(s, i + 1)] == '}' || s[SkipSpaces(s, i + 1)] == ']')
  }

  /** Where the scan that starts at `i` resumes. */
  function CommaNext(s: string, i: nat): (n: nat)
    requires i < |s|
    ensures i < n <= |s|
  {
    if ClosesAfterComma(s, i) then SkipSpaces(s, i + 1) + 1 else i + 1
  }

  /** Only commas are removed: every other character keeps its count. */
  lemma {:induction false} TrailingCommasKeepOthers(s: string, i: nat, c: char)
    requires i <= |s| && c != ','
    ensures Occurrences(StripTrailingCommas(s, i), c) == Occurrences(s[i..], c)
    decreases |s| - i
  {
    if i < |s| {
      TrailingCommasKeepOthers(s, CommaNext(s, i), c);
      CommaStep(s, i, c);
    }
  }

  /** One step of the scan at `i`: if the count holds from where it resumes, it holds from `i`. */
  lemma CommaStep(s: string, i: nat, c: char)
    requires i < |s| && c != ','
    requires Occurrences(StripTrailingCommas(s, CommaNext(s, i)), c) == Occurrences(s[CommaNext(s, i)..], c)
    ensures Occurrences(StripTrailingCommas(s, i), c) == Occurrences(s[i..], c)
  {
    if ClosesAfterComma(s, i) {
      DroppedCommaStep(s, i, c);
    } else {
      CharKept(s, i);
      CountAfterKeptChar(s, i, c, StripTrailingCommas(s, i + 1));
    }
  }

  /** The step over a comma that goes. */
  lemma DroppedCommaStep(s: string, i: nat, c: char)
    requires i < |s| && c != ',' && ClosesAfterComma(s, i)
    requires Occurrences(StripTrailingCommas(s, CommaNext(s, i)), c) == Occurrences(s[CommaNext(s, i)..], c)
    ensures Occurrences(StripTrailingCommas(s, i), c) == Occurrences(s[i..], c)
  {
    var k := CommaDropped(s, i);
    CountAfterDroppedComma(s, i, k, c, StripTrailingCommas(s, k + 1));
  }

  /** The comma at `i` goes; the blanks up to and including the bracket at `k` stay. */
  lemma CommaDropped(s: string, i: nat) returns (k: nat)
    requires i < |s| && ClosesAfterComma(s, i)
    ensures k + 1 == CommaNext(s, i)
    ensures i < k < |s| && s[i] == ',' && (s[k] == '}' || s[k] == ']')
    ensures StripTrailingCommas(s, i) == s[i + 1..k + 1] + StripTrailingCommas(s, k + 1)
  {
    k := SkipSpaces(s, i + 1);
    CommaUnfolds(s, i);
  }

  lemma CommaUnfolds(s: string, i: nat)
    requires i < |s| && ClosesAfterComma(s, i)
    ensures StripTrailingCommas(s, i) ==
      s[i + 1..SkipSpaces(s, i + 1) + 1] + StripTrailingCommas(s, SkipSpaces(s, i + 1) + 1)
  {
  }

  lemma CharKept(s: string, i: nat)
    requires i < |s| && !ClosesAfterComma(s, i)
    ensures StripTrailingCommas(s, i) == [s[i]] + StripTrailingCommas(s, i + 1)
  {
  }

  lemma CountAfterDroppedComma(s: string, i: nat, k: nat, c: char, rest: string)
    requires i < k < |s| && s[i] == ',' && c != ','
    requires Occurrences(rest, c) == Occurrences(s[k + 1..], c)
    ensures Occurrences(s[i + 1..k + 1] + rest, c) == Occurrences(s[i..], c)
  {
    SuffixHead(s, i);
    OccurrencesAppend([s[i]], s[i + 1..], c);
    SliceSplit(s, i + 1, k + 1);
    OccurrencesAppend(s[i + 1..k + 1], s[k + 1..], c);
    OccurrencesAppend(s[i + 1..k + 1], rest, c);
  }

  /** The three substitutions of the second attempt, in order. */
  function Clean(s: string): string
  {
    var noLine := StripLineComments(s, 0);
    var noBlock := StripBlockComments(noLine, 0);
    StripTrailingCommas(noBlock, 0)
  }

  /** A text with no '/' and no ',' comes through the cleaning pass unchanged. */
  lemma CleanKeepsPlainText(s: string)
    requires '/' !in s && ',' !in s
    ensures Clean(s) == s
  {
    assert s[0..] == s;
    LineCommentsNeedSlash(s, 0);
    BlockCommentsNeedSlash(s, 0);
    TrailingCommasNeedComma(s, 0);
  }

  /** Without a '/' there is no comment to remove. */
  lemma {:induction false} LineCommentsNeedSlash(s: string, i: nat)
    requires i <= |s| && forall q :: i <= q < |s| ==> s[q] != '/'
    ensures StripLineComments(s, i) == s[i..]
    decreases |s| - i
  {
    if i < |s| {
      LineCommentsNeedSlash(s, i + 1);
      SuffixHead(s, i);
    }
  }

  lemma {:induction false} BlockCommentsNeedSlash(s: string, i: nat)
    requires i <= |s| && forall q :: i <= q < |s| ==> s[q] != '/'
    ensures StripBlockComments(s, i) == s[i..]
    decreases |s| - i
  {
    if i < |s| {
      BlockCommentsNeedSlash(s, i + 1);
      SuffixHead(s, i);
    }
  }

  /** Without a ',' there is no comma to remove. */
  lemma {:induction false} TrailingCommasNeedComma(s: string, i: nat)
    requires i <= |s| && forall q :: i <= q < |s| ==> s[q] != ','
    ensures StripTrailingCommas(s, i) == s[i..]
    decreases |s| - i
  {
    if i < |s| {
      TrailingCommasNeedComma(s, i + 1);
      SuffixHead(s, i);
    }
  }

  // ---------------------------------------------------------------------
  // What each substitution removes
  // ---------------------------------------------------------------------

  /** Prepending the character at `i` to the slice after it gives the slice from `i`. */
  lemma ConsSlice(s: string, i: nat, n: nat, x: string, y: string, z: string)
    requires 0 < n && i + n <= |s|
    requires x == [s[i]] + y && y == s[i + 1..i + n] + z
    ensures x == s[i..i + n] + z
  {
    assert s[i..i + n] == [s[i]] + s[i + 1..i + n];
  }

  lemma BlockCharKept(s: string, i: nat)
    requires i < |s| && !PairAt(s, i, '/', '*')
    ensures StripBlockComments(s, i) == [s[i]] + StripBlockComments(s, i + 1)
  {
  }

  /** Text where no `//` starts is copied, and the scan resumes after it. */
  lemma {:induction false} LinePlainKept(s: string, i: nat, n: nat)
    requires i + n <= |s| && forall q :: i <= q < i + n ==> !PairAt(s, q, '/', '/')
    ensures StripLineComments(s, i) == s[i..i + n] + StripLineComments(s, i + n)
    decreases n
  {
    if n > 0 {
      assert !PairAt(s, i, '/', '/');
      LineCharKept(s, i);
      LinePlainKept(s, i + 1, n - 1);
      ConsSlice(s, i, n, StripLineComments(s, i), StripLineComments(s, i + 1), StripLineComments(s, i + n));
    }
  }

  /**
   * The first `//` of `a + "//" + c + "\n" + b` (no `//` starts inside `a`,
   * no newline in `c`) is removed up to its line break, which stays; the
   * text before it is kept and the substitution goes on with `b`.
   */
  lemma LineCommentRemoved(s: string, i: nat, a: string, c: string, b: string)
    requires i <= |s| && s[i..] == a + "//" + c + "\n" + b
    requires forall q :: i <= q < i + |a| ==> !PairAt(s, q, '/', '/')
    requires '\n' !in c
    ensures StripLineComments(s, i) == a + "\n" + StripLineComments(s, |s| - |b|)
  {
    var p := i + |a|;
    var e := p + 2 + |c|;
    LineCommentShape(s, i, a, c, b);
    LineCommentAt(s, i, p, e);
    calc {
      StripLineComments(s, i);
      s[i..p] + "\n" + StripLineComments(s, e + 1);
      { assert s[i..p] == a; assert e + 1 == |s| - |b|; }
      a + "\n" + StripLineComments(s, |s| - |b|);
    }
  }

  /** The same, by positions: the `//` at `p` runs to the newline at `e`. */
  lemma LineCommentAt(s: string, i: nat, p: nat, e: nat)
    requires i <= p && p + 2 <= e < |s| && PairAt(s, p, '/', '/') && s[e] == '\n'
    requires forall q :: p + 2 <= q < e ==> s[q] != '\n'
    requires forall q :: i <= q < p ==> !PairAt(s, q, '/', '/')
    ensures StripLineComments(s, i) == s[i..p] + "\n" + StripLineComments(s, e + 1)
  {
    var j := CommentRemoved(s, p);
    assert j == e;
    LinePlainKept(s, i, p - i);
    calc {
      StripLineComments(s, i);
      s[i..i + (p - i)] + StripLineComments(s, i + (p - i));
      { assert i + (p - i) == p; }
      s[i..p] + StripLineComments(s, p);
      s[i..p] + ("\n" + StripLineComments(s, e + 1));
      s[i..p] + "\n" + StripLineComments(s, e + 1);
    }
  }

  /** Where the parts of `a + "//" + c + "\n" + b` stand in `s`. */
  lemma LineCommentShape(s: string, i: nat, a: string, c: string, b: string)
    requires i <= |s| && s[i..] == a + "//" + c + "\n" + b
    requires '\n' !in c
    ensures var p := i + |a|;
      && |s| - |b| == p + 3 + |c| && s[i..p] == a && PairAt(s, p, '/', '/') && s[p + 2 + |c|] == '\n'
      && forall q :: p + 2 <= q < p + 2 + |c| ==> s[q] != '\n'
  {
    var p := i + |a|;
    var u := s[i..];
    assert u[..|a|] == a && u[|a|] == '/' && u[|a| + 1] == '/' && u[|a| + 2 + |c|] == '\n';
    forall q | p + 2 <= q < p + 2 + |c|
      ensures s[q] != '\n'
    {
      assert s[q] == u[q - i] == c[q - p - 2];
    }
  }

  /** Text where no slash-star starts is copied, and the scan resumes after it. */
  lemma {:induction false} BlockPlainKept(s: string, i: nat, n: nat)
    requires i + n <= |s| && forall q :: i <= q < i + n ==> !PairAt(s, q, '/', '*')
    ensures StripBlockComments(s, i) == s[i..i + n] + StripBlockComments(s, i + n)
    decreases n
  {
    if n > 0 {
      assert !PairAt(s, i, '/', '*');
      BlockCharKept(s, i);
      BlockPlainKept(s, i + 1, n - 1);
      ConsSlice(s, i, n, StripBlockComments(s, i), StripBlockComments(s, i + 1), StripBlockComments(s, i + n));
    }
  }

  /** The search for the closing star-slash stops at the first one. */
  lemma {:induction false} BlockEndAt(s: string, from: nat, e: nat)
    requires from <= e && PairAt(s, e, '*', '/')
    requires forall q :: from <= q < e ==> !PairAt(s, q, '*', '/')
    ensures FindBlockEnd(s, from) == e
    decreases e - from
  {
    if from < e {
      BlockEndAt(s, from + 1, e);
    }
  }

  /**
   * The first slash-star of `s[i..]`, after a stretch `a` where none starts,
   * opens a comment `c` with no star-slash inside; the comment is removed
   * together with its closing star-slash and everything up
   * to the first closing star-slash, which may span lines; the text before
   * it is kept and the substitution goes on with `b`.
   */
  lemma BlockCommentRemoved(s: string, i: nat, a: string, c: string, b: string)
    requires i <= |s| && s[i..] == a + "/*" + c + "*/" + b
    requires forall q :: i <= q < i + |a| ==> !PairAt(s, q, '/', '*')
    requires forall q :: 0 <= q < |c| - 1 ==> !(c[q] == '*' && c[q + 1] == '/')
    ensures StripBlockComments(s, i) == a + StripBlockComments(s, |s| - |b|)
  {
    var p := i + |a|;
    var e := p + 2 + |c|;
    BlockCommentShape(s, i, a, c, b);
    BlockCommentAt(s, i, p, e);
    assert s[i..p] == a;
    assert e + 2 == |s| - |b|;
  }

  /** The same, by positions: the comment opened at `p` is closed by the first star-slash, at `e`. */
  lemma BlockCommentAt(s: string, i: nat, p: nat, e: nat)
    requires i <= p && p + 2 <= e && PairAt(s, p, '/', '*') && PairAt(s, e, '*', '/')
    requires forall q :: p + 2 <= q < e ==> !PairAt(s, q, '*', '/')
    requires forall q :: i <= q < p ==> !PairAt(s, q, '/', '*')
    ensures StripBlockComments(s, i) == s[i..p] + StripBlockComments(s, e + 2)
  {
    BlockEndAt(s, p + 2, e);
    assert StripBlockComments(s, p) == StripBlockComments(s, e + 2);
    BlockPlainKept(s, i, p - i);
    calc {
      StripBlockComments(s, i);
      s[i..i + (p - i)] + StripBlockComments(s, i + (p - i));
      { assert i + (p - i) == p; }
      s[i..p] + StripBlockComments(s, p);
      s[i..p] + StripBlockComments(s, e + 2);
    }
  }

  /** Where the parts of the text (before, opener, comment, closer, after) stand in `s`. */
  lemma BlockCommentShape(s: string, i: nat, a: string, c: string, b: string)
    requires i <= |s| && s[i..] == a + "/*" + c + "*/" + b
    requires forall q :: 0 <= q < |c| - 1 ==> !(c[q] == '*' && c[q + 1] == '/')
    ensures var p := i + |a|; var e := p + 2 + |c|;
      && |s| - |b| == e + 2 && s[i..p] == a && PairAt(s, p, '/', '*') && PairAt(s, e, '*', '/')
      && forall q :: p + 2 <= q < e ==> !PairAt(s, q, '*', '/')
  {
    var p := i + |a|;
    var e := p + 2 + |c|;
    var u := s[i..];
    assert u[..|a|] == a && u[|a|] == '/' && u[|a| + 1] == '*';
    assert u[e - i] == '*' && u[e - i + 1] == '/';
    forall q | p + 2 <= q < e
      ensures !PairAt(s, q, '*', '/')
    {
      assert s[q] == u[q - i] == c[q - p - 2];
      if q + 1 < e {
        assert s[q + 1] == u[q + 1 - i] == c[q + 1 - p - 2];
      } else {
        assert s[q + 1] == '*';
      }
    }
  }

  /** Text where no dropped comma stands is copied, and the scan resumes after it. */
  lemma {:induction false} CommaPlainKept(s: string, i: nat, n: nat)
    requires i + n <= |s| && forall q :: i <= q < i + n ==> !ClosesAfterComma(s, q)
    ensures StripTrailingCommas(s, i) == s[i..i + n] + StripTrailingCommas(s, i + n)
    decreases n
  {
    if n > 0 {
      assert !ClosesAfterComma(s, i);
      CharKept(s, i);
      CommaPlainKept(s, i + 1, n - 1);
      ConsSlice(s, i, n, StripTrailingCommas(s, i), StripTrailingCommas(s, i + 1), StripTrailingCommas(s, i + n));
    }
  }

  /** Blanks from `from` up to a non-blank at `e` are skipped exactly to `e`. */
  lemma {:induction false} SkipSpacesTo(s: string, from: nat, e: nat)
    requires from <= e < |s| && !IsSpace(s[e])
    requires forall q :: from <= q < e ==> IsSpace(s[q])
    ensures SkipSpaces(s, from) == e
    decreases e - from
  {
    if from < e {
      SkipSpacesTo(s, from + 1, e);
    }
  }

  /**
   * In `a + "," + w + [close] + b`, with only blanks in `w`, a closing brace
   * or bracket `close`, and no earlier comma that goes, the comma is dropped
   * and the blanks and the bracket stay; the substitution goes on with `b`.
   */
  lemma TrailingCommaRemoved(s: string, i: nat, a: string, w: string, close: char, b: string)
    requires i <= |s| && s[i..] == a + "," + w + [close] + b
    requires forall q :: i <= q < i + |a| ==> !ClosesAfterComma(s, q)
    requires (forall q :: 0 <= q < |w| ==> IsSpace(w[q])) && (close == '}' || close == ']')
    ensures StripTrailingCommas(s, i) == a + w + [close] + StripTrailingCommas(s, |s| - |b|)
  {
    var p := i + |a|;
    var e := p + 1 + |w|;
    TrailingCommaShape(s, i, a, w, close, b);
    TrailingCommaAt(s, i, p, e);
    assert s[i..p] == a;
    assert s[p + 1..e + 1] == w + [close];
    assert e + 1 == |s| - |b|;
  }

  /** The same, by positions: the comma at `p` is followed by blanks up to the bracket at `e`. */
  lemma TrailingCommaAt(s: string, i: nat, p: nat, e: nat)
    requires i <= p < e < |s| && s[p] == ',' && (s[e] == '}' || s[e] == ']')
    requires forall q :: p + 1 <= q < e ==> IsSpace(s[q])
    requires forall q :: i <= q < p ==> !ClosesAfterComma(s, q)
    ensures StripTrailingCommas(s, i) == s[i..p] + s[p + 1..e + 1] + StripTrailingCommas(s, e + 1)
  {
    CommaBeforeBracket(s, p, e);
    CommaPlainKept(s, i, p - i);
    assert i + (p - i) == p;
  }

  /** The comma at `p`, with blanks up to the bracket at `e`, goes. */
  lemma CommaBeforeBracket(s: string, p: nat, e: nat)
    requires p < e < |s| && s[p] == ',' && (s[e] == '}' || s[e] == ']')
    requires forall q :: p + 1 <= q < e ==> IsSpace(s[q])
    ensures StripTrailingCommas(s, p) == s[p + 1..e + 1] + StripTrailingCommas(s, e + 1)
  {
    SkipSpacesTo(s, p + 1, e);
    assert ClosesAfterComma(s, p);
    CommaUnfolds(s, p);
  }

  /** Where the parts of `a + "," + w + [close] + b` stand in `s`. */
  lemma TrailingCommaShape(s: string, i: nat, a: string, w: string, close: char, b: string)
    requires i <= |s| && s[i..] == a + "," + w + [close] + b
    requires (forall q :: 0 <= q < |w| ==> IsSpace(w[q])) && (close == '}' || close == ']')
    ensures var p := i + |a|; var e := p + 1 + |w|;
      && |s| - |b| == e + 1 && s[i..p] == a && s[p] == ',' && s[e] == close
      && s[p + 1..e + 1] == w + [close]
      && forall q :: p + 1 <= q < e ==> IsSpace(s[q])
  {
    var p := i + |a|;
    var e := p + 1 + |w|;
    var u := s[i..];
    assert u[..|a|] == a && u[|a|] == ',' && u[e - i] == close;
    assert u[|a| + 1..e - i + 1] == w + [close];
    forall q | p + 1 <= q < e
      ensures IsSpace(s[q])
    {
      assert s[q] == u[q - i] == w[q - p - 1];
    }
  }

  /** `_parse_json_response`. */
  function ParseJsonResponse<J>(content: string, parse: string -> Option<J>): (r: Option<J>)
    ensures var u := Unfence(content); ('{' !in u || '}' !in u) ==> r.None?
    ensures var slice := BraceSlice(Unfence(content));
      slice.Some? && parse(slice.value).Some? ==> r == parse(slice.value)
    ensures var slice := BraceSlice(Unfence(content));
      slice.Some? && parse(slice.value).None? ==> r == parse(Clean(slice.value))
  {
    match BraceSlice(Unfence(content))
    case None => None
    case Some(slice) =>
      if parse(slice).Some? then parse(slice) else parse(Clean(slice))
  }

  /**
   * A reply made of an object between fences, with no '{' before the object
   * and no '}' after it, is parsed as that object.
   */
  lemma FencedObjectIsParsed<J>(pre: string, body: string, post: string, parse: string -> Option<J>)
    requires '`' !in pre + body + post
    requires '{' !in pre && '}' !in post
    requires |body| >= 2 && body[0] == '{' && body[|body| - 1] == '}'
    requires parse(body).Some?
    ensures ParseJsonResponse("```json" + (pre + body + post) + "```", parse) == parse(body)
  {
    UnfenceStripsFences(pre + body + post);
    BraceSliceBounds(pre, body, post);
  }

  /** A bare object with no backticks is parsed as it stands. */
  lemma BareObjectIsParsed<J>(body: string, parse: string -> Option<J>)
    requires '`' !in body && |body| >= 2 && body[0] == '{' && body[|body| - 1] == '}'
    requires parse(body).Some?
    ensures ParseJsonResponse(body, parse) == parse(body)
  {
    UnfenceKeepsPlainText(body);
    BraceSliceBounds("", body, "");
    assert "" + body + "" == body;
  }
}
