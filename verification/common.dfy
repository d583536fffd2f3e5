/**
 * Shared vocabulary of the model: optional values, and the few Python
 * built-ins the bot leans on, written out over Dafny's unbounded types.
 *
 * - `Trunc` is Python `int(x)` on a float (truncation toward zero).
 * - `RoundHalfEven`, `Round1`, `Round2` are Python `round(x)`,
 *   `round(x, 1)` and `round(x, 2)` (ties go to the even neighbour).
 * - Strings are `seq<char>`; `IsSpace` is `str.isspace` (also the regex
 *   class `\s`), `Lower`/`Upper` cover ASCII and the Cyrillic block.
 */
module Common {

  datatype Option<T> = None | Some(value: T)

  /** Python `d.get(key, default)` for a key that may be absent. */
  function GetOr<T>(o: Option<T>, default: T): (r: T)
    ensures o.Some? ==> r == o.value
    ensures o.None? ==> r == default
  {
    if o.Some? then o.value else default
  }

  // ---------------------------------------------------------------------
  // Numbers
  // ---------------------------------------------------------------------

  function Abs(x: real): (r: real)
    ensures r >= 0.0 && (r == x || r == -x)
  {
    if x < 0.0 then -x else x
  }

  function Min(a: real, b: real): (r: real)
    ensures r <= a && r <= b && (r == a || r == b)
  {
    if a <= b then a else b
  }

  function Max(a: real, b: real): (r: real)
    ensures r >= a && r >= b && (r == a || r == b)
  {
    if a >= b then a else b
  }

  /** Python `int(x)` for a float: drops the fraction, toward zero. */
  function Trunc(x: real): (r: int)
    ensures 0.0 <= x ==> 0 <= r && r as real <= x < r as real + 1.0
    ensures x < 0.0 ==> r <= 0 && r as real - 1.0 < x <= r as real
  {
    if x >= 0.0 then x.Floor else -((-x).Floor)
  }

  /** Python `round(x)`: nearest integer, ties to the even one. */
  function RoundHalfEven(x: real): (r: int)
    ensures Abs(r as real - x) <= 0.5
    ensures Abs(r as real - x) == 0.5 ==> r % 2 == 0
  {
    var f := x.Floor;
    var d := x - f as real;
    if d < 0.5 then f
    else if d > 0.5 then f + 1
    else if f % 2 == 0 then f
    else f + 1
  }

  /** Python `round(x, 1)`. */
  function Round1(x: real): (r: real)
    ensures Abs(r - x) <= 0.05
  {
    RoundHalfEven(x * 10.0) as real / 10.0
  }

  /** Python `round(x, 2)`. */
  function Round2(x: real): (r: real)
    ensures Abs(r - x) <= 0.005
  {
    RoundHalfEven(x * 100.0) as real / 100.0
  }

  /** Left-to-right sum, the shape of a running-total loop. */
  function Sum(xs: seq<real>): real
  {
    if |xs| == 0 then 0.0 else Sum(xs[..|xs| - 1]) + xs[|xs| - 1]
  }

  /** `sum(x * w for x, w in zip(xs, ws))`. */
  function Dot(xs: seq<real>, ws: seq<real>): real
    requires |xs| == |ws|
  {
    if |xs| == 0 then 0.0
    else Dot(xs[..|xs| - 1], ws[..|ws| - 1]) + xs[|xs| - 1] * ws[|ws| - 1]
  }

  /** With non-negative weights and every value at least `lo`, the weighted sum is at least `lo` times the total weight. */
  lemma {:induction false} DotAbove(xs: seq<real>, ws: seq<real>, lo: real)
    requires |xs| == |ws|
    requires forall i :: 0 <= i < |xs| ==> ws[i] >= 0.0 && lo <= xs[i]
    ensures lo * Sum(ws) <= Dot(xs, ws)
    decreases |xs|
  {
    if |xs| > 0 {
      var n := |xs| - 1;
      DotAbove(xs[..n], ws[..n], lo);
      LowerStep(Dot(xs[..n], ws[..n]), Sum(ws[..n]), xs[n], ws[n], lo);
    }
  }

  /** With non-negative weights and every value at most `hi`, the weighted sum is at most `hi` times the total weight. */
  lemma {:induction false} DotBelow(xs: seq<real>, ws: seq<real>, hi: real)
    requires |xs| == |ws|
    requires forall i :: 0 <= i < |xs| ==> ws[i] >= 0.0 && xs[i] <= hi
    ensures Dot(xs, ws) <= hi * Sum(ws)
    decreases |xs|
  {
    if |xs| > 0 {
      var n := |xs| - 1;
      DotBelow(xs[..n], ws[..n], hi);
      UpperStep(Dot(xs[..n], ws[..n]), Sum(ws[..n]), xs[n], ws[n], hi);
    }
  }

  lemma LowerStep(a: real, s: real, x: real, c: real, lo: real)
    requires lo * s <= a && c >= 0.0 && lo <= x
    ensures lo * (s + c) <= a + x * c
  {
    assert (x - lo) * c >= 0.0;
  }

  lemma UpperStep(a: real, s: real, x: real, c: real, hi: real)
    requires a <= hi * s && c >= 0.0 && x <= hi
    ensures a + x * c <= hi * (s + c)
  {
    assert (hi - x) * c >= 0.0;
  }

  /** A total between `lo` and `hi` times a positive weight gives a mean between `lo` and `hi`. */
  lemma MeanBetween(w: real, s: real, lo: real, hi: real)
    requires s > 0.0 && lo * s <= w <= hi * s
    ensures lo <= w / s <= hi
  {
    var m := w / s;
    assert m * s == w;
    assert (m - lo) * s >= 0.0;
    assert (hi - m) * s >= 0.0;
  }

  lemma {:induction false} SumAppend(xs: seq<real>, ys: seq<real>)
    ensures Sum(xs + ys) == Sum(xs) + Sum(ys)
    decreases |ys|
  {
    if |ys| == 0 {
      assert xs + ys == xs;
    } else {
      var n := |ys| - 1;
      assert (xs + ys)[..|xs + ys| - 1] == xs + ys[..n];
      SumAppend(xs, ys[..n]);
    }
  }

  lemma {:induction false} SumNonNegative(xs: seq<real>)
    requires forall i :: 0 <= i < |xs| ==> xs[i] >= 0.0
    ensures Sum(xs) >= 0.0
    decreases |xs|
  {
    if |xs| > 0 {
      SumNonNegative(xs[..|xs| - 1]);
    }
  }

  // ---------------------------------------------------------------------
  // Characters
  // ---------------------------------------------------------------------

  /** Python `str.isspace`, which is also what `\s` matches. */
  predicate IsSpace(c: char)
  {
    c == ' ' || ('\t' <= c <= '\r') || ('\U{1C}' <= c <= '\U{1F}')
    || c == '\U{85}' || c == '\U{A0}' || c == '\U{1680}'
    || ('\U{2000}' <= c <= '\U{200A}') || c == '\U{2028}' || c == '\U{2029}'
    || c == '\U{202F}' || c == '\U{205F}' || c == '\U{3000}'
  }

  predicate IsDigit(c: char)
  {
    '0' <= c <= '9'
  }

  function LowerChar(c: char): char
  {
    if 'A' <= c <= 'Z' then (c as int + 32) as char
    else if '\U{410}' <= c <= '\U{42F}' then (c as int + 32) as char
    else if '\U{400}' <= c <= '\U{40F}' then (c as int + 80) as char
    else c
  }

  function UpperChar(c: char): char
  {
    if 'a' <= c <= 'z' then (c as int - 32) as char
    else if '\U{430}' <= c <= '\U{44F}' then (c as int - 32) as char
    else if '\U{450}' <= c <= '\U{45F}' then (c as int - 80) as char
    else c
  }

  /** A letter with a case, as far as `LowerChar`/`UpperChar` know. */
  predicate IsCased(c: char)
  {
    LowerChar(c) != c || UpperChar(c) != c
  }

  // ---------------------------------------------------------------------
  // Strings
  // ---------------------------------------------------------------------

  /** Python `str.lower`. */
  function Lower(s: string): (r: string)
    ensures |r| == |s|
    ensures forall i :: 0 <= i < |s| ==> r[i] == LowerChar(s[i])
  {
    if s == [] then [] else [LowerChar(s[0])] + Lower(s[1..])
  }

  /** Python `str.capitalize`: first character upper case, the rest lower. */
  function Capitalize(s: string): (r: string)
    ensures |r| == |s|
    ensures |s| > 0 ==> r[0] == UpperChar(s[0]) && r[1..] == Lower(s[1..])
  {
    if s == [] then [] else [UpperChar(s[0])] + Lower(s[1..])
  }

  /**
   * Python `str.title`: a character is upper-cased when the one before it
   * is not a cased letter, and lower-cased otherwise.
   */
  function TitleFrom(s: string, prevCased: bool): (r: string)
    ensures |r| == |s|
  {
    if s == [] then []
    else
      var c := if prevCased then LowerChar(s[0]) else UpperChar(s[0]);
      [c] + TitleFrom(s[1..], IsCased(s[0]))
  }

  function Title(s: string): string
  {
    TitleFrom(s, false)
  }

  /** First index at or after `i` that is not whitespace (or `|s|`). */
  function SkipSpaces(s: string, i: nat): (j: nat)
    requires i <= |s|
    ensures i <= j <= |s|
    ensures j < |s| ==> !IsSpace(s[j])
    decreases |s| - i
  {
    if i < |s| && IsSpace(s[i]) then SkipSpaces(s, i + 1) else i
  }

  /** Everything `SkipSpaces` skips is whitespace. */
  lemma {:induction false} SkipSpacesSkipsSpaces(s: string, i: nat)
    requires i <= |s|
    ensures forall k :: i <= k < SkipSpaces(s, i) ==> IsSpace(s[k])
    decreases |s| - i
  {
    if i < |s| && IsSpace(s[i]) {
      SkipSpacesSkipsSpaces(s, i + 1);
    }
  }

  /** End of the run of digits that starts at `i`. */
  function SkipDigits(s: string, i: nat): (j: nat)
    requires i <= |s|
    ensures i <= j <= |s|
    ensures j < |s| ==> !IsDigit(s[j])
    ensures forall k :: i <= k < j ==> IsDigit(s[k])
    decreases |s| - i
  {
    if i < |s| && IsDigit(s[i]) then SkipDigits(s, i + 1) else i
  }

  /** Start of the whitespace run that ends at `j`. */
  function TrimEnd(s: string, j: nat): (k: nat)
    requires j <= |s|
    ensures k <= j
    ensures k > 0 ==> !IsSpace(s[k - 1])
    ensures forall m :: k <= m < j ==> IsSpace(s[m])
  {
    if j > 0 && IsSpace(s[j - 1]) then TrimEnd(s, j - 1) else j
  }

  /** Python `str.rstrip()`. */
  function RStrip(s: string): (r: string)
    ensures r == [] || !IsSpace(r[|r| - 1])
    ensures r <= s
  {
    s[..TrimEnd(s, |s|)]
  }

  /** Python `str.strip()`. */
  function Strip(s: string): (r: string)
    ensures r == [] || (!IsSpace(r[0]) && !IsSpace(r[|r| - 1]))
    ensures |r| <= |s|
    ensures (forall k :: 0 <= k < |s| ==> !IsSpace(s[k])) ==> r == s
  {
    var i := SkipSpaces(s, 0);
    var r := RStrip(s[i..]);
    assert r == [] || r[0] == s[i];
    r
  }

  /** A text with no whitespace at either end is left alone by `strip()`. */
  lemma StripUnchanged(s: string)
    requires s == [] || (!IsSpace(s[0]) && !IsSpace(s[|s| - 1]))
    ensures Strip(s) == s
  {
  }

  /** `strip()` removes one trailing whitespace character after a word. */
  lemma StripTrailingSpace(w: string, c: char)
    requires |w| > 0 && !IsSpace(w[0]) && !IsSpace(w[|w| - 1]) && IsSpace(c)
    ensures Strip(w + [c]) == w
  {
    var s := w + [c];
    assert s[0..] == s;
    assert TrimEnd(s, |s|) == TrimEnd(s, |w|);
  }

  /** A text with no upper-case letters is left alone by `lower()`. */
  lemma LowerUnchanged(s: string)
    requires forall c :: c in s ==> LowerChar(c) == c
    ensures Lower(s) == s
  {
    assert forall i :: 0 <= i < |s| ==> s[i] in s;
  }

  /** `w` occurs in `t` at position `p`. */
  predicate PrefixAt(t: string, p: nat, w: string)
  {
    p + |w| <= |t| && t[p..p + |w|] == w
  }

  /** Python `t.find(w, start)`, as an explicit left-to-right search. */
  function IndexOf(t: string, w: string, start: nat): (r: int)
    ensures r == -1 || (start <= r && PrefixAt(t, r, w))
    ensures r >= 0 ==> forall q :: start <= q < r ==> !PrefixAt(t, q, w)
    ensures r == -1 ==> forall q :: start <= q ==> !PrefixAt(t, q, w)
    decreases |t| + 1 - start
  {
    if start + |w| > |t| then -1
    else if PrefixAt(t, start, w) then start
    else IndexOf(t, w, start + 1)
  }

  /** Python `w in t`. */
  predicate Contains(t: string, w: string)
  {
    IndexOf(t, w, 0) >= 0
  }

  lemma ContainsAt(t: string, w: string, p: nat)
    requires PrefixAt(t, p, w)
    ensures Contains(t, w)
  {
  }

  lemma ContainsWitness(t: string, w: string) returns (p: nat)
    requires Contains(t, w)
    ensures PrefixAt(t, p, w)
  {
    p := IndexOf(t, w, 0);
  }

  /** The concatenation `a + w + b` contains `w`. */
  lemma ContainsMiddle(a: string, w: string, b: string)
    ensures Contains(a + w + b, w)
  {
    assert (a + w + b)[|a|..|a| + |w|] == w;
    ContainsAt(a + w + b, w, |a|);
  }

  /** Python `t.rfind(w)`: the last position, or -1. */
  function LastIndexOf(t: string, w: string, end: nat): (r: int)
    requires end <= |t|
    ensures r == -1 || (0 <= r && r + |w| <= end && PrefixAt(t, r, w))
    ensures r >= 0 ==> forall q :: r < q && q + |w| <= end ==> !PrefixAt(t, q, w)
    ensures r == -1 ==> forall q: nat :: q + |w| <= end ==> !PrefixAt(t, q, w)
    decreases end
  {
    if |w| > end then -1
    else if PrefixAt(t, end - |w|, w) then end - |w|
    else if end == 0 then -1
    else LastIndexOf(t, w, end - 1)
  }

  /** Position of the first `c` at or after `from`, or -1. */
  function FindChar(s: string, c: char, from: nat): (r: int)
    requires from <= |s|
    ensures r == -1 || (from <= r < |s| && s[r] == c)
    ensures forall q :: from <= q < |s| && (r == -1 || q < r) ==> s[q] != c
    decreases |s| - from
  {
    if from == |s| then -1 else if s[from] == c then from else FindChar(s, c, from + 1)
  }

  /** `[c]` occurs at `p` exactly when the character at `p` is `c`. */
  lemma PrefixAtChar(t: string, p: nat, c: char)
    ensures PrefixAt(t, p, [c]) <==> p < |t| && t[p] == c
  {
    if p < |t| {
      assert t[p..p + 1] == [t[p]];
    }
  }

  /** `t.find(c, start)` for one character, stated character by character. */
  lemma IndexOfChar(t: string, c: char, start: nat)
    ensures var r := IndexOf(t, [c], start);
      && (r >= 0 ==> start <= r < |t| && t[r] == c)
      && (forall q :: start <= q < |t| && (r == -1 || q < r) ==> t[q] != c)
  {
    var r := IndexOf(t, [c], start);
    forall q | start <= q < |t| && (r == -1 || q < r)
      ensures t[q] != c
    {
      PrefixAtChar(t, q, c);
    }
    if r >= 0 {
      PrefixAtChar(t, r, c);
    }
  }

  /** `t.rfind(c)` for one character, stated character by character. */
  lemma LastIndexOfChar(t: string, c: char)
    ensures var r := LastIndexOf(t, [c], |t|);
      && (r >= 0 ==> r < |t| && t[r] == c)
      && (forall q :: 0 <= q < |t| && r < q ==> t[q] != c)
  {
    var r := LastIndexOf(t, [c], |t|);
    forall q | 0 <= q < |t| && r < q
      ensures t[q] != c
    {
      PrefixAtChar(t, q, c);
    }
    if r >= 0 {
      PrefixAtChar(t, r, c);
    }
  }

  lemma SliceSplit<T>(s: seq<T>, a: nat, b: nat)
    requires a <= b <= |s|
    ensures s[a..] == s[a..b] + s[b..]
  {
  }

  lemma SuffixHead<T>(s: seq<T>, a: nat)
    requires a < |s|
    ensures s[a..] == [s[a]] + s[a + 1..]
  {
  }

  /** How many times `x` occurs in `s`. */
  function Occurrences<T(==)>(s: seq<T>, x: T): nat
  {
    if |s| == 0 then 0 else (if s[0] == x then 1 else 0) + Occurrences(s[1..], x)
  }

  /** No occurrence exactly when `x` is not an element. */
  lemma {:induction false} OccurrencesZero<T>(s: seq<T>, x: T)
    ensures Occurrences(s, x) == 0 <==> x !in s
    decreases |s|
  {
    if |s| > 0 {
      assert s == [s[0]] + s[1..];
      OccurrencesZero(s[1..], x);
    }
  }

  lemma {:induction false} OccurrencesAppend<T>(a: seq<T>, b: seq<T>, x: T)
    ensures Occurrences(a + b, x) == Occurrences(a, x) + Occurrences(b, x)
    decreases |a|
  {
    if |a| > 0 {
      assert (a + b)[1..] == a[1..] + b;
      OccurrencesAppend(a[1..], b, x);
    } else {
      assert a + b == b;
    }
  }

  /** Python `s.replace(pat, rep)` for a non-empty `pat`, scanning left to right. */
  function Replace(s: string, pat: string, rep: string): (r: string)
    requires |pat| > 0
    ensures !Contains(s, pat) ==> r == s
    decreases |s|
  {
    if |s| < |pat| then s
    else if s[..|pat|] == pat then
      assert PrefixAt(s, 0, pat);
      rep + Replace(s[|pat|..], pat, rep)
    else
      var rest := Replace(s[1..], pat, rep);
      assert !Contains(s, pat) ==> !Contains(s[1..], pat) by {
        if !Contains(s, pat) && Contains(s[1..], pat) {
          var p := ContainsWitness(s[1..], pat);
          assert s[p + 1..p + 1 + |pat|] == s[1..][p..p + |pat|];
          ContainsAt(s, pat, p + 1);
        }
      }
      [s[0]] + rest
  }

  // ---------------------------------------------------------------------
  // Decimal integers
  // ---------------------------------------------------------------------

  function DigitValue(c: char): nat
  {
    if IsDigit(c) then c as nat - '0' as nat else 0
  }

  function DigitChar(d: nat): (c: char)
    requires d < 10
    ensures IsDigit(c) && DigitValue(c) == d
  {
    ('0' as nat + d) as char
  }

  /** Python `int(s)` for a string made of ASCII digits. */
  function DigitsValue(s: string): nat
  {
    if |s| == 0 then 0 else DigitsValue(s[..|s| - 1]) * 10 + DigitValue(s[|s| - 1])
  }

  /** Python `str(n)` for a natural number. */
  function NatToString(n: nat): (s: string)
    ensures |s| > 0
    ensures forall i :: 0 <= i < |s| ==> IsDigit(s[i])
    decreases n
  {
    if n < 10 then [DigitChar(n)] else NatToString(n / 10) + [DigitChar(n % 10)]
  }

  /** Python `str(i)` for an integer. */
  function IntToString(i: int): (s: string)
  {
    if i < 0 then "-" + NatToString(-i) else NatToString(i)
  }

  /** Printing a number and reading it back gives the number. */
  lemma {:induction false} NatToStringRoundTrip(n: nat)
    ensures DigitsValue(NatToString(n)) == n
    decreases n
  {
    if n >= 10 {
      NatToStringRoundTrip(n / 10);
      var s := NatToString(n);
      assert s[..|s| - 1] == NatToString(n / 10);
    }
  }

  /** Python `sep.join(parts)`. */
  function Join(parts: seq<string>, sep: string): (r: string)
    ensures parts == [] ==> r == ""
    ensures |parts| == 1 ==> r == parts[0]
  {
    if |parts| == 0 then ""
    else if |parts| == 1 then parts[0]
    else Join(parts[..|parts| - 1], sep) + sep + parts[|parts| - 1]
  }

  /** A join of parts one of which is non-empty is non-empty. */
  lemma {:induction false} JoinNonEmpty(parts: seq<string>, sep: string, k: nat)
    requires k < |parts| && parts[k] != ""
    ensures Join(parts, sep) != ""
    decreases |parts|
  {
    if |parts| > 1 {
      var n := |parts| - 1;
      if k < n {
        JoinNonEmpty(parts[..n], sep, k);
      }
      assert |Join(parts, sep)| >= |parts[n]| + |Join(parts[..n], sep)|;
    }
  }

  /** Rounding never leaves an interval with whole-number ends. */
  lemma RoundHalfEvenWithin(x: real, lo: int, hi: int)
    requires lo as real <= x <= hi as real
    ensures lo <= RoundHalfEven(x) <= hi
  {
  }

  /** `round(x, 2)` of a value in [0, 1] stays in [0, 1]. */
  lemma Round2Unit(x: real)
    requires 0.0 <= x <= 1.0
    ensures 0.0 <= Round2(x) <= 1.0
  {
    RoundHalfEvenWithin(x * 100.0, 0, 100);
  }

  /** `[f(x) for x in xs]`. */
  function MapSeq<A, B>(f: A -> B, xs: seq<A>): (r: seq<B>)
    ensures |r| == |xs|
  {
    if |xs| == 0 then [] else MapSeq(f, xs[..|xs| - 1]) + [f(xs[|xs| - 1])]
  }
}
