/**
 * The two multiline regular expressions the orchestrator runs with `String.prototype.match`,
 * modelled as the leftmost-match search of a backtracking engine:
 *
 *   - `/^#\s+(.+)$/m`       the first level-one heading of `proposal.md`;
 *   - `/^iteration:\s*(\d+)/m`  the iteration counter of the refinement-loop state file.
 *
 * `match` returns the first capture group of the leftmost position where the pattern
 * matches; `FirstMatch` is that group, `None` where `match` returns `null`.
 */
module Regex {
  import opened Wrappers
  import opened Text

  /** What `.` matches: anything but a line terminator. */
  predicate IsLineChar(c: char) { !IsLineTerminator(c) }

  /** Where `^` matches in multiline mode: the start, or just after a line terminator. */
  predicate LineStart(s: string, p: nat) {
    p == 0 || (p <= |s| && IsLineTerminator(s[p - 1]))
  }

  /** The end of the maximal run of characters satisfying `inRun` that starts at `i` (a greedy `C*`). */
  function RunEnd(s: string, i: nat, inRun: char -> bool): (e: nat)
    requires i <= |s|
    ensures i <= e <= |s|
    ensures forall j :: i <= j < e ==> inRun(s[j])
    ensures e < |s| ==> !inRun(s[e])
    decreases |s| - i
  {
    if i < |s| && inRun(s[i]) then RunEnd(s, i + 1, inRun) else i
  }

  /** A run is maximal in one place only. */
  lemma RunEndAt(s: string, i: nat, e: nat, inRun: char -> bool)
    requires i <= e <= |s|
    requires forall j :: i <= j < e ==> inRun(s[j])
    requires e < |s| ==> !inRun(s[e])
    ensures RunEnd(s, i, inRun) == e
    decreases e - i
  {
    if i < e {
      RunEndAt(s, i + 1, e, inRun);
    }
  }

  /** The largest `k` in `[lo, hi)` where `.` can match, if any. */
  function LastLineChar(s: string, lo: nat, hi: nat): (k: Option<nat>)
    requires lo <= hi <= |s|
    ensures k.Some? ==> lo <= k.value < hi && IsLineChar(s[k.value])
    ensures k.None? ==> forall j :: lo <= j < hi ==> !IsLineChar(s[j])
    decreases hi - lo
  {
    if hi == lo then None
    else if IsLineChar(s[hi - 1]) then Some(hi - 1)
    else LastLineChar(s, lo, hi - 1)
  }

  datatype Pattern =
    | Heading        // /^#\s+(.+)$/m
    | IterationLine  // /^iteration:\s*(\d+)/m

  const IterationKey := "iteration:"

  /**
   * The capture of `/^#\s+(.+)$/m` tried at position `p`. The greedy `\s+` may cross
   * line ends. If it stops before a non-space, `.+` takes that line to its end. If the
   * white space reaches the end of the input, `\s+` gives characters back until `.`
   * can match one of them.
   */
  function HeadingAt(s: string, p: nat): (m: Option<string>)
    requires p < |s|
    ensures m.Some? ==> forall j :: 0 <= j < |m.value| ==> IsLineChar(m.value[j])
  {
    if !(LineStart(s, p) && s[p] == '#') then None
    else
      var q := RunEnd(s, p + 1, IsSpace);
      if q == p + 1 then None
      else if q < |s| then Some(s[q..RunEnd(s, q, IsLineChar)])
      else
        match LastLineChar(s, p + 2, |s|)
        case None => None
        case Some(k) => Some(s[k..RunEnd(s, k, IsLineChar)])
  }

  /** The capture of `/^iteration:\s*(\d+)/m` tried at position `p`: the digits after the key. */
  function IterationAt(s: string, p: nat): (m: Option<string>)
    requires p < |s|
    ensures m.Some? ==> m.value != [] && forall j :: 0 <= j < |m.value| ==> IsDigit(m.value[j])
  {
    if !(LineStart(s, p) && p + |IterationKey| <= |s| && s[p..p + |IterationKey|] == IterationKey) then None
    else
      var q := RunEnd(s, p + |IterationKey|, IsSpace);
      if q < |s| && IsDigit(s[q]) then Some(s[q..RunEnd(s, q, IsDigit)]) else None
  }

  function MatchAt(pat: Pattern, s: string, p: nat): Option<string>
    requires p < |s|
  {
    match pat
    case Heading => HeadingAt(s, p)
    case IterationLine => IterationAt(s, p)
  }

  /** The leftmost position at or after `i` where the pattern matches. */
  function FirstMatchAt(pat: Pattern, s: string, i: nat): (p: Option<nat>)
    ensures p.Some? ==> i <= p.value < |s| && MatchAt(pat, s, p.value).Some?
    ensures p.Some? ==> forall j :: i <= j < p.value ==> MatchAt(pat, s, j).None?
    ensures p.None? ==> forall j :: i <= j < |s| ==> MatchAt(pat, s, j).None?
    decreases |s| - i
  {
    if i >= |s| then None
    else if MatchAt(pat, s, i).Some? then Some(i)
    else FirstMatchAt(pat, s, i + 1)
  }

  /** The first capture group of `s.match(pattern)`, or `None` for `null`. */
  function FirstMatch(pat: Pattern, s: string): Option<string> {
    match FirstMatchAt(pat, s, 0)
    case Some(p) => MatchAt(pat, s, p)
    case None => None
  }

  /** The search stops at the first position that matches and skips every earlier one. */
  lemma FirstMatchIs(pat: Pattern, s: string, p: nat)
    requires p < |s| && MatchAt(pat, s, p).Some?
    requires forall j :: 0 <= j < p ==> MatchAt(pat, s, j).None?
    ensures FirstMatch(pat, s) == MatchAt(pat, s, p)
  {
    var f := FirstMatchAt(pat, s, 0);
    assert f == Some(p);
  }

  /**
   * No line of `s` begins with `c`: checked character by character, so that it can be
   * evaluated on a literal.
   */
  predicate NoLineStartsWith(s: string, c: char, atLineStart: bool)
    decreases |s|
  {
    s == [] || ((!atLineStart || s[0] != c) && NoLineStartsWith(s[1..], c, IsLineTerminator(s[0])))
  }

  lemma {:induction false} NoLineStartsWithAt(s: string, c: char, atLineStart: bool, p: nat)
    requires NoLineStartsWith(s, c, atLineStart)
    requires p < |s| && (if p == 0 then atLineStart else IsLineTerminator(s[p - 1]))
    ensures s[p] != c
    decreases |s|
  {
    if p > 0 {
      NoLineStartsWithAt(s[1..], c, IsLineTerminator(s[0]), p - 1);
    }
  }

  /** The rest of a line never starts a line, so only the line after it matters. */
  lemma {:induction false} NoLineStartsWithMidLine(l: string, c: char, rest: string)
    requires forall j :: 0 <= j < |l| ==> IsLineChar(l[j])
    requires NoLineStartsWith(rest, c, true)
    ensures NoLineStartsWith(l + "\n" + rest, c, false)
    decreases |l|
  {
    if l == [] {
      assert l + "\n" + rest == "\n" + rest;
      assert ("\n" + rest)[1..] == rest;
    } else {
      NoLineStartsWithMidLine(l[1..], c, rest);
      assert (l + "\n" + rest)[1..] == l[1..] + "\n" + rest;
    }
  }

  /** A line that does not start with `c`, followed by text in which no line does. */
  lemma NoLineStartsWithLine(l: string, c: char, rest: string)
    requires l != [] && l[0] != c && forall j :: 0 <= j < |l| ==> IsLineChar(l[j])
    requires NoLineStartsWith(rest, c, true)
    ensures NoLineStartsWith(l + "\n" + rest, c, true)
  {
    NoLineStartsWithMidLine(l[1..], c, rest);
    assert (l + "\n" + rest)[1..] == l[1..] + "\n" + rest;
  }

  /** Nothing before `pre`'s end can match when no line of `pre` starts with the pattern's first character. */
  lemma NoMatchInPreamble(pat: Pattern, pre: string, t: string, p: nat)
    requires pre == [] || IsLineTerminator(pre[|pre| - 1])
    requires NoLineStartsWith(pre, if pat.Heading? then '#' else 'i', true)
    requires p < |pre|
    ensures MatchAt(pat, pre + t, p).None?
  {
    var s := pre + t;
    assert s[p] == pre[p];
    if LineStart(s, p) {
      if p > 0 {
        assert s[p - 1] == pre[p - 1];
      }
      NoLineStartsWithAt(pre, if pat.Heading? then '#' else 'i', true, p);
      if pat.IterationLine? && p + |IterationKey| <= |s| {
        assert s[p..p + |IterationKey|][0] != IterationKey[0];
      }
    }
  }

  /** `/^#\s+(.+)$/m` at `p` when a white-space run `[p+1, q)` is followed by a line `[q, e)` starting with a non-space. */
  lemma HeadingAtLine(s: string, p: nat, q: nat, e: nat)
    requires LineStart(s, p) && p + 1 < q <= e <= |s| && s[p] == '#'
    requires forall j :: p + 1 <= j < q ==> IsSpace(s[j])
    requires q < |s| && !IsSpace(s[q])
    requires forall j :: q <= j < e ==> IsLineChar(s[j])
    requires e < |s| ==> !IsLineChar(s[e])
    ensures HeadingAt(s, p) == Some(s[q..e])
  {
    RunEndAt(s, p + 1, q, IsSpace);
    RunEndAt(s, q, e, IsLineChar);
  }

  /** A `##` line never matches where it starts: the second `#` is not white space. */
  lemma DoubleHashNoHeading(s: string, p: nat)
    requires p + 1 < |s| && s[p + 1] == '#'
    ensures HeadingAt(s, p).None?
  {
    RunEndAt(s, p + 1, p + 1, IsSpace);
  }

  /** No line of `pre` starts with `#` followed by white space (`## Overview` and `#tag` are allowed). */
  predicate NoHeadingLine(pre: string) {
    forall p :: 0 <= p < |pre| && LineStart(pre, p) && pre[p] == '#' ==> p + 1 < |pre| && !IsSpace(pre[p + 1])
  }

  /** A text in which no line starts with `#` has no heading line either. */
  lemma NoHeadingLineOf(pre: string)
    requires NoLineStartsWith(pre, '#', true)
    ensures NoHeadingLine(pre)
  {
    forall p | 0 <= p < |pre| && LineStart(pre, p) ensures pre[p] != '#' {
      NoLineStartsWithAt(pre, '#', true, p);
    }
  }

  /** A line that does not start with `#` and white space, followed by text without heading lines. */
  lemma NoHeadingLineLine(l: string, rest: string)
    requires forall j :: 0 <= j < |l| ==> IsLineChar(l[j])
    requires l != [] && l[0] == '#' ==> 1 < |l| && !IsSpace(l[1])
    requires NoHeadingLine(rest)
    ensures NoHeadingLine(l + "\n" + rest)
  {
    var s := l + "\n" + rest;
    forall p | 0 <= p < |s| && LineStart(s, p) && s[p] == '#' ensures p + 1 < |s| && !IsSpace(s[p + 1]) {
      if p == 0 {
        assert l != [] && s[0] == l[0] && s[1] == l[1];
      } else {
        var k := p - |l| - 1;
        assert s[p] == rest[k];
        if k > 0 {
          assert s[p - 1] == rest[k - 1];
        }
        assert LineStart(rest, k);
        assert s[p + 1] == rest[k + 1];
      }
    }
  }

  /** No position inside a preamble without heading lines starts a heading. */
  lemma HeadingPreambleSkipped(pre: string, tail: string)
    requires pre == [] || IsLineTerminator(pre[|pre| - 1])
    requires NoHeadingLine(pre)
    ensures forall j :: 0 <= j < |pre| ==> MatchAt(Heading, pre + tail, j).None?
  {
    var s := pre + tail;
    forall j | 0 <= j < |pre| ensures HeadingAt(s, j).None? {
      assert s[j] == pre[j];
      if LineStart(s, j) && s[j] == '#' {
        if j > 0 {
          assert s[j - 1] == pre[j - 1];
        }
        assert LineStart(pre, j);
        assert s[j + 1] == pre[j + 1];
        RunEndAt(s, j + 1, j + 1, IsSpace);
      }
    }
  }

  /** `/^iteration:\s*(\d+)/m` at `p` when the key is followed by white space `[k, q)` and digits `[q, e)`. */
  lemma IterationAtLine(s: string, p: nat, q: nat, e: nat)
    requires LineStart(s, p) && p + |IterationKey| <= q < e <= |s|
    requires s[p..p + |IterationKey|] == IterationKey
    requires forall j :: p + |IterationKey| <= j < q ==> IsSpace(s[j])
    requires forall j :: q <= j < e ==> IsDigit(s[j])
    requires e < |s| ==> !IsDigit(s[e])
    ensures IterationAt(s, p) == Some(s[q..e])
  {
    RunEndAt(s, p + |IterationKey|, q, IsSpace);
    RunEndAt(s, q, e, IsDigit);
  }

  /** No position inside the preamble starts a match. */
  lemma PreambleSkipped(pat: Pattern, pre: string, tail: string)
    requires pre == [] || IsLineTerminator(pre[|pre| - 1])
    requires NoLineStartsWith(pre, if pat.Heading? then '#' else 'i', true)
    ensures forall j :: 0 <= j < |pre| && j < |pre + tail| ==> MatchAt(pat, pre + tail, j).None?
  {
    forall j | 0 <= j < |pre| ensures MatchAt(pat, pre + tail, j).None? {
      NoMatchInPreamble(pat, pre, tail, j);
    }
  }

  /** A line start directly after the preamble. */
  lemma AfterPreambleIsLineStart(pre: string, tail: string)
    requires pre == [] || IsLineTerminator(pre[|pre| - 1])
    ensures LineStart(pre + tail, |pre|)
  {
    if pre != [] {
      assert (pre + tail)[|pre| - 1] == pre[|pre| - 1];
    }
  }

  lemma HeadingLine(pre: string, ws: string, t: string, rest: string)
    requires pre == [] || IsLineTerminator(pre[|pre| - 1])
    requires ws != [] && forall j :: 0 <= j < |ws| ==> IsSpace(ws[j])
    requires t != [] && !IsSpace(t[0]) && forall j :: 0 <= j < |t| ==> IsLineChar(t[j])
    requires rest == [] || IsLineTerminator(rest[0])
    ensures |pre| < |pre + ("#" + ws + t + rest)|
    ensures HeadingAt(pre + ("#" + ws + t + rest), |pre|) == Some(t)
  {
    var s := pre + ("#" + ws + t + rest);
    var p := |pre|;
    var q := p + 1 + |ws|;
    var e := q + |t|;
    HeadingLineShape(pre, ws, t, rest);
    HeadingAtLine(s, p, q, e);
  }

  /** The positions in a heading line that `HeadingAtLine` needs. */
  lemma HeadingLineShape(pre: string, ws: string, t: string, rest: string)
    requires pre == [] || IsLineTerminator(pre[|pre| - 1])
    requires ws != [] && forall j :: 0 <= j < |ws| ==> IsSpace(ws[j])
    requires t != [] && !IsSpace(t[0]) && forall j :: 0 <= j < |t| ==> IsLineChar(t[j])
    requires rest == [] || IsLineTerminator(rest[0])
    ensures var s, p := pre + ("#" + ws + t + rest), |pre|;
      var q := p + 1 + |ws|;
      var e := q + |t|;
      && LineStart(s, p) && p + 1 < q <= e <= |s| && s[p] == '#'
      && (forall j :: p + 1 <= j < q ==> IsSpace(s[j]))
      && q < |s| && !IsSpace(s[q])
      && (forall j :: q <= j < e ==> IsLineChar(s[j]))
      && (e < |s| ==> !IsLineChar(s[e]))
      && s[q..e] == t
  {
    HeadingMarkShape(pre, ws, t + rest);
    HeadingTitleShape(pre + "#" + ws, t, rest);
    assert pre + ("#" + ws + t + rest) == pre + "#" + ws + (t + rest);
    assert pre + ("#" + ws + t + rest) == (pre + "#" + ws) + (t + rest);
  }

  /** The marker and the blank run of a heading line after `pre`. */
  lemma HeadingMarkShape(pre: string, ws: string, tail: string)
    requires pre == [] || IsLineTerminator(pre[|pre| - 1])
    requires forall j :: 0 <= j < |ws| ==> IsSpace(ws[j])
    ensures var s, p := pre + "#" + ws + tail, |pre|;
      && LineStart(s, p) && s[p] == '#'
      && (forall j :: p + 1 <= j < p + 1 + |ws| ==> IsSpace(s[j]))
  {
    var s, p := pre + "#" + ws + tail, |pre|;
    assert s == pre + ("#" + ws + tail);
    AfterPreambleIsLineStart(pre, "#" + ws + tail);
    forall j | p + 1 <= j < p + 1 + |ws| ensures IsSpace(s[j]) {
      assert s[j] == ws[j - p - 1];
    }
  }

  /** The title run of a heading line, followed by its end. */
  lemma HeadingTitleShape(head: string, t: string, rest: string)
    requires t != [] && !IsSpace(t[0]) && forall j :: 0 <= j < |t| ==> IsLineChar(t[j])
    requires rest == [] || IsLineTerminator(rest[0])
    ensures var s, q := head + (t + rest), |head|;
      && q < |s| && !IsSpace(s[q])
      && (forall j :: q <= j < q + |t| ==> IsLineChar(s[j]))
      && (q + |t| < |s| ==> !IsLineChar(s[q + |t|]))
      && s[q..q + |t|] == t
  {
    var s, q := head + (t + rest), |head|;
    assert s[q] == t[0];
    forall j | q <= j < q + |t| ensures IsLineChar(s[j]) {
      assert s[j] == t[j - q];
    }
    if q + |t| < |s| {
      assert s[q + |t|] == rest[0];
    }
    assert s[q..q + |t|] == t;
  }


  /**
   * A heading line is found after a preamble in which no line starts with `#` and white
   * space: `#`, then white space (which may cross line ends), then a line whose first
   * character is not a space; the capture is that line.
   */
  lemma HeadingAfterPreamble(pre: string, ws: string, t: string, rest: string)
    requires pre == [] || IsLineTerminator(pre[|pre| - 1])
    requires NoHeadingLine(pre)
    requires ws != [] && forall j :: 0 <= j < |ws| ==> IsSpace(ws[j])
    requires t != [] && !IsSpace(t[0]) && forall j :: 0 <= j < |t| ==> IsLineChar(t[j])
    requires rest == [] || IsLineTerminator(rest[0])
    ensures FirstMatch(Heading, pre + ("#" + ws + t + rest)) == Some(t)
  {
    var tail := "#" + ws + t + rest;
    HeadingLine(pre, ws, t, rest);
    HeadingPreambleSkipped(pre, tail);
    FirstMatchIs(Heading, pre + tail, |pre|);
  }

  lemma IterationLineAt(pre: string, ws: string, digits: string, rest: string)
    requires pre == [] || IsLineTerminator(pre[|pre| - 1])
    requires forall j :: 0 <= j < |ws| ==> IsSpace(ws[j])
    requires digits != [] && forall j :: 0 <= j < |digits| ==> IsDigit(digits[j])
    requires rest == [] || !IsDigit(rest[0])
    ensures |pre| < |pre + (IterationKey + ws + digits + rest)|
    ensures IterationAt(pre + (IterationKey + ws + digits + rest), |pre|) == Some(digits)
  {
    var s := pre + (IterationKey + ws + digits + rest);
    var p := |pre|;
    var q := p + |IterationKey| + |ws|;
    var e := q + |digits|;
    IterationLineShape(pre, ws, digits, rest);
    IterationAtLine(s, p, q, e);
  }

  /** The positions in an iteration line that `IterationAtLine` needs. */
  lemma IterationLineShape(pre: string, ws: string, digits: string, rest: string)
    requires pre == [] || IsLineTerminator(pre[|pre| - 1])
    requires forall j :: 0 <= j < |ws| ==> IsSpace(ws[j])
    requires digits != [] && forall j :: 0 <= j < |digits| ==> IsDigit(digits[j])
    requires rest == [] || !IsDigit(rest[0])
    ensures var s, p := pre + (IterationKey + ws + digits + rest), |pre|;
      var q := p + |IterationKey| + |ws|;
      var e := q + |digits|;
      && LineStart(s, p) && p + |IterationKey| <= q < e <= |s|
      && s[p..p + |IterationKey|] == IterationKey
      && (forall j :: p + |IterationKey| <= j < q ==> IsSpace(s[j]))
      && (forall j :: q <= j < e ==> IsDigit(s[j]))
      && (e < |s| ==> !IsDigit(s[e]))
      && s[q..e] == digits
  {
    IterationKeyShape(pre, ws, digits + rest);
    IterationDigitsShape(pre + IterationKey + ws, digits, rest);
    assert pre + (IterationKey + ws + digits + rest) == pre + IterationKey + ws + (digits + rest);
    assert pre + (IterationKey + ws + digits + rest) == (pre + IterationKey + ws) + (digits + rest);
  }

  /** The key and the blank run of an iteration line after `pre`. */
  lemma IterationKeyShape(pre: string, ws: string, tail: string)
    requires pre == [] || IsLineTerminator(pre[|pre| - 1])
    requires forall j :: 0 <= j < |ws| ==> IsSpace(ws[j])
    ensures var s, p := pre + IterationKey + ws + tail, |pre|;
      && LineStart(s, p) && s[p..p + |IterationKey|] == IterationKey
      && (forall j :: p + |IterationKey| <= j < p + |IterationKey| + |ws| ==> IsSpace(s[j]))
  {
    var s, p := pre + IterationKey + ws + tail, |pre|;
    var k := p + |IterationKey|;
    assert s == pre + (IterationKey + ws + tail);
    AfterPreambleIsLineStart(pre, IterationKey + ws + tail);
    assert s[p..k] == IterationKey;
    forall j | k <= j < k + |ws| ensures IsSpace(s[j]) {
      assert s[j] == ws[j - k];
    }
  }

  /** The digit run of an iteration line, followed by a non-digit or the end. */
  lemma IterationDigitsShape(head: string, digits: string, rest: string)
    requires digits != [] && forall j :: 0 <= j < |digits| ==> IsDigit(digits[j])
    requires rest == [] || !IsDigit(rest[0])
    ensures var s, q := head + (digits + rest), |head|;
      && q + |digits| <= |s|
      && (forall j :: q <= j < q + |digits| ==> IsDigit(s[j]))
      && (q + |digits| < |s| ==> !IsDigit(s[q + |digits|]))
      && s[q..q + |digits|] == digits
  {
    var s, q := head + (digits + rest), |head|;
    forall j | q <= j < q + |digits| ensures IsDigit(s[j]) {
      assert s[j] == digits[j - q];
    }
    if q + |digits| < |s| {
      assert s[q + |digits|] == rest[0];
    }
    assert s[q..q + |digits|] == digits;
  }

  /**
   * An iteration line is found after a preamble in which no line starts with `i`:
   * the key, optional white space, then the maximal run of digits.
   */
  lemma IterationAfterPreamble(pre: string, ws: string, digits: string, rest: string)
    requires pre == [] || IsLineTerminator(pre[|pre| - 1])
    requires NoLineStartsWith(pre, 'i', true)
    requires forall j :: 0 <= j < |ws| ==> IsSpace(ws[j])
    requires digits != [] && forall j :: 0 <= j < |digits| ==> IsDigit(digits[j])
    requires rest == [] || !IsDigit(rest[0])
    ensures FirstMatch(IterationLine, pre + (IterationKey + ws + digits + rest)) == Some(digits)
  {
    var tail := IterationKey + ws + digits + rest;
    IterationLineAt(pre, ws, digits, rest);
    PreambleSkipped(IterationLine, pre, tail);
    FirstMatchIs(IterationLine, pre + tail, |pre|);
  }
}
