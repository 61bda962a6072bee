/**
 * The JavaScript string primitives the orchestrator relies on, as functions on
 * `seq<char>`: the regular-expression character classes it uses, ASCII
 * `toLowerCase`, a global `replace` of a character class (`/[...]/g` and
 * `/[...]+/g`), `trim`, `split`/`join` on one separator character, and the
 * decimal rendering of a number in a template literal.
 */
module Text {

  // ---------------------------------------------------------------------------
  // Character classes
  // ---------------------------------------------------------------------------

  predicate IsUpper(c: char) { 'A' <= c <= 'Z' }

  predicate IsDigit(c: char) { '0' <= c <= '9' }

  /** The class `[a-z0-9]`. */
  predicate IsLowerAlnum(c: char) { 'a' <= c <= 'z' || IsDigit(c) }

  /** ECMAScript line terminators: what `.` does not match and what `^`/`$` see in multiline mode. */
  predicate IsLineTerminator(c: char) {
    c == '\n' || c == '\r' || c == '\U{2028}' || c == '\U{2029}'
  }

  /** The class `\s`, which is also the set `String.prototype.trim` removes: white space and line terminators. */
  predicate IsSpace(c: char) {
    || c == '\t' || c == '\U{B}' || c == '\U{C}' || c == ' ' || c == '\U{A0}' || c == '\U{1680}'
    || ('\U{2000}' <= c <= '\U{200A}') || c == '\U{202F}' || c == '\U{205F}' || c == '\U{3000}'
    || c == '\U{FEFF}' || IsLineTerminator(c)
  }

  predicate IsDash(c: char) { c == '-' }

  // ---------------------------------------------------------------------------
  // toLowerCase (ASCII letters only)
  // ---------------------------------------------------------------------------

  function LowerChar(c: char): (l: char)
    ensures !IsUpper(l)
    ensures !IsUpper(c) ==> l == c
  {
    if IsUpper(c) then (c as int + 32) as char else c
  }

  function ToLower(s: string): (r: string)
    ensures |r| == |s|
    ensures forall i :: 0 <= i < |s| ==> r[i] == LowerChar(s[i])
  {
    seq(|s|, i requires 0 <= i < |s| => LowerChar(s[i]))
  }

  // ---------------------------------------------------------------------------
  // Global replacement of a character class
  // ---------------------------------------------------------------------------

  /**
   * `s.replace(/[^K]/g, '')`: keeps only characters satisfying `keep`; `FilterCounts` says
   * that it keeps each of them as often as it occurs, `FilterConcat` that it keeps their order.
   */
  function Filter(s: string, keep: char -> bool): (r: string)
    ensures |r| <= |s|
    ensures forall i :: 0 <= i < |r| ==> keep(r[i]) && r[i] in s
    ensures (forall i :: 0 <= i < |s| ==> keep(s[i])) ==> r == s
  {
    if s == [] then []
    else if keep(s[0]) then [s[0]] + Filter(s[1..], keep)
    else Filter(s[1..], keep)
  }

  /** Every character satisfying `keep` survives as often as it occurs; no other one does. */
  lemma {:induction false} FilterCounts(s: string, keep: char -> bool)
    ensures forall c :: multiset(Filter(s, keep))[c] == if keep(c) then multiset(s)[c] else 0
  {
    if s != [] {
      FilterCounts(s[1..], keep);
      assert s == [s[0]] + s[1..];
    }
  }

  /** Filtering works piecewise: a kept character stays in place relative to the others. */
  lemma {:induction false} FilterConcat(a: string, b: string, keep: char -> bool)
    ensures Filter(a + b, keep) == Filter(a, keep) + Filter(b, keep)
  {
    if a == [] {
      assert a + b == b;
    } else {
      assert (a + b)[0] == a[0];
      assert (a + b)[1..] == a[1..] + b;
      FilterConcat(a[1..], b, keep);
    }
  }


  /** What is left of `s` after its leading run of characters satisfying `inRun`. */
  function DropRun(s: string, inRun: char -> bool): (r: string)
    ensures |r| <= |s| && r == s[|s| - |r|..]
    ensures r != [] ==> !inRun(r[0])
    ensures forall i :: 0 <= i < |s| - |r| ==> inRun(s[i])
  {
    if s != [] && inRun(s[0]) then
      var r := DropRun(s[1..], inRun);
      assert s[1..][|s| - 1 - |r|..] == s[|s| - |r|..];
      assert forall i :: 1 <= i < |s| - |r| ==> s[i] == s[1..][i - 1];
      r
    else s
  }

  /**
   * `s.replace(/[C]+/g, sub)`: every maximal run of characters satisfying `inRun`
   * becomes the single character `sub`; every other character is kept.
   */
  function ReplaceRuns(s: string, inRun: char -> bool, sub: char): string
    decreases |s|
  {
    if s == [] then []
    else if inRun(s[0]) then [sub] + ReplaceRuns(DropRun(s, inRun), inRun, sub)
    else [s[0]] + ReplaceRuns(s[1..], inRun, sub)
  }

  /** No two adjacent occurrences of `c`. */
  predicate NoDoubled(s: string, c: char) {
    forall i :: 0 <= i < |s| - 1 ==> !(s[i] == c && s[i + 1] == c)
  }

  /** Every character of the result is `sub` or a character of `s` outside the replaced class. */
  lemma {:induction false} ReplaceRunsChars(s: string, inRun: char -> bool, sub: char)
    ensures forall i :: 0 <= i < |ReplaceRuns(s, inRun, sub)| ==>
      var c := ReplaceRuns(s, inRun, sub)[i]; c == sub || (c in s && !inRun(c))
    decreases |s|
  {
    if s == [] {
    } else if inRun(s[0]) {
      var d := DropRun(s, inRun);
      ReplaceRunsChars(d, inRun, sub);
      forall c | c in d ensures c in s {
        var j :| 0 <= j < |d| && d[j] == c;
        assert s[|s| - |d| + j] == c;
      }
    } else {
      ReplaceRunsChars(s[1..], inRun, sub);
    }
  }

  /** The first character of the result is `sub` exactly when `s` starts inside the class. */
  lemma ReplaceRunsHead(s: string, inRun: char -> bool, sub: char)
    requires s != []
    ensures ReplaceRuns(s, inRun, sub) != []
    ensures ReplaceRuns(s, inRun, sub)[0] == if inRun(s[0]) then sub else s[0]
  {
  }

  /** When `sub` itself belongs to the replaced class, the result never holds `sub` twice in a row. */
  lemma {:induction false} ReplaceRunsNoDoubled(s: string, inRun: char -> bool, sub: char)
    requires inRun(sub)
    ensures NoDoubled(ReplaceRuns(s, inRun, sub), sub)
    decreases |s|
  {
    if s == [] {
    } else if inRun(s[0]) {
      var d := DropRun(s, inRun);
      ReplaceRunsNoDoubled(d, inRun, sub);
      if d != [] {
        ReplaceRunsHead(d, inRun, sub);
      }
    } else {
      ReplaceRunsNoDoubled(s[1..], inRun, sub);
    }
  }

  /**
   * A string whose every class character is `sub` standing alone is left unchanged:
   * the replacement is the identity on its own results.
   */
  lemma {:induction false} ReplaceRunsFixed(s: string, inRun: char -> bool, sub: char)
    requires forall i :: 0 <= i < |s| && inRun(s[i]) ==> s[i] == sub && (i + 1 < |s| ==> !inRun(s[i + 1]))
    ensures ReplaceRuns(s, inRun, sub) == s
    decreases |s|
  {
    if s == [] {
    } else if inRun(s[0]) {
      assert DropRun(s, inRun) == s[1..] by {
        if |s| > 1 {
          assert !inRun(s[1]);
        }
      }
      ReplaceRunsFixed(s[1..], inRun, sub);
    } else {
      ReplaceRunsFixed(s[1..], inRun, sub);
    }
  }

  // ---------------------------------------------------------------------------
  // trim
  // ---------------------------------------------------------------------------

  function TrimStart(s: string): (r: string)
    ensures |r| <= |s| && r == s[|s| - |r|..]
    ensures r != [] ==> !IsSpace(r[0])
    ensures forall i :: 0 <= i < |s| - |r| ==> IsSpace(s[i])
  {
    if s != [] && IsSpace(s[0]) then TrimStart(s[1..]) else s
  }

  function TrimEnd(s: string): (r: string)
    ensures |r| <= |s| && r == s[..|r|]
    ensures r != [] ==> !IsSpace(r[|r| - 1])
    ensures forall i :: |r| <= i < |s| ==> IsSpace(s[i])
  {
    if s != [] && IsSpace(s[|s| - 1]) then TrimEnd(s[..|s| - 1]) else s
  }

  /** `String.prototype.trim`. */
  function Trim(s: string): string {
    TrimEnd(TrimStart(s))
  }

  /**
   * `trim` returns the slice of `s` between its leading and trailing white space:
   * the result starts and ends with a non-space, and everything cut off is space.
   */
  lemma TrimSlice(s: string) returns (lo: nat, hi: nat)
    ensures lo <= hi <= |s| && Trim(s) == s[lo..hi]
    ensures Trim(s) != [] ==> !IsSpace(Trim(s)[0]) && !IsSpace(Trim(s)[|Trim(s)| - 1])
    ensures forall i :: 0 <= i < lo ==> IsSpace(s[i])
    ensures forall i :: hi <= i < |s| ==> IsSpace(s[i])
  {
    var t := TrimStart(s);
    var r := TrimEnd(t);
    lo := |s| - |t|;
    hi := lo + |r|;
    forall i | hi <= i < |s| ensures IsSpace(s[i]) {
      assert s[i] == t[i - lo];
    }
  }

  /** `trim` leaves a string without leading or trailing white space as it is. */
  lemma TrimFixed(s: string)
    requires s != [] ==> !IsSpace(s[0]) && !IsSpace(s[|s| - 1])
    ensures Trim(s) == s
  {
  }

  /** `trim` drops one trailing blank after an already trimmed string. */
  lemma TrimTrailingBlank(s: string, c: char)
    requires s != [] && !IsSpace(s[0]) && !IsSpace(s[|s| - 1]) && IsSpace(c)
    ensures Trim(s + [c]) == s
  {
    var u := s + [c];
    var lo, hi := TrimSlice(u);
    assert u[0] == s[0] && u[|s| - 1] == s[|s| - 1];
    assert lo == 0;
    assert hi == |s|;
    assert u[..|s|] == s;
  }

  // ---------------------------------------------------------------------------
  // split and join on one separator character
  // ---------------------------------------------------------------------------

  /** `s.split(sep)` for a one-character separator: the pieces between separators, at least one. */
  function Split(s: string, sep: char): (parts: seq<string>)
    ensures |parts| >= 1
    ensures forall k :: 0 <= k < |parts| ==> sep !in parts[k]
  {
    if s == [] then [[]]
    else
      var rest := Split(s[1..], sep);
      if s[0] == sep then [[]] + rest else [[s[0]] + rest[0]] + rest[1..]
  }

  /** `parts.join(sep)`. */
  function Join(parts: seq<string>, sep: char): string {
    if |parts| == 0 then []
    else if |parts| == 1 then parts[0]
    else parts[0] + [sep] + Join(parts[1..], sep)
  }

  lemma JoinCons(parts: seq<string>, sep: char)
    requires |parts| >= 2
    ensures Join(parts, sep) == parts[0] + [sep] + Join(parts[1..], sep)
  {
  }

  /** The first piece of a split is the prefix before the first separator. */
  lemma {:induction false} SplitFirst(s: string, sep: char)
    ensures var f := Split(s, sep)[0];
      |f| <= |s| && f == s[..|f|] && sep !in f && (|f| < |s| ==> s[|f|] == sep)
  {
    if s != [] {
      SplitFirst(s[1..], sep);
    }
  }

  lemma {:induction false} SplitNoSeparator(x: string, sep: char)
    requires sep !in x
    ensures Split(x, sep) == [x]
  {
    if x != [] {
      assert sep !in x[1..] by {
        forall i | 0 <= i < |x| - 1 ensures x[1..][i] != sep {
          assert x[1..][i] == x[i + 1];
        }
      }
      SplitNoSeparator(x[1..], sep);
      assert [x[0]] + x[1..] == x;
    }
  }

  lemma {:induction false} SplitAfterPiece(x: string, sep: char, t: string)
    requires sep !in x
    ensures Split(x + [sep] + t, sep) == [x] + Split(t, sep)
  {
    if x == [] {
      assert (x + [sep] + t)[1..] == t;
    } else {
      assert (x + [sep] + t)[1..] == x[1..] + [sep] + t;
      SplitAfterPiece(x[1..], sep, t);
      assert [x[0]] + x[1..] == x;
    }
  }

  /** Splitting a join gives the pieces back, when no piece holds the separator. */
  lemma {:induction false} SplitJoin(parts: seq<string>, sep: char)
    requires |parts| >= 1
    requires forall k :: 0 <= k < |parts| ==> sep !in parts[k]
    ensures Split(Join(parts, sep), sep) == parts
  {
    if |parts| == 1 {
      SplitNoSeparator(parts[0], sep);
    } else {
      SplitJoin(parts[1..], sep);
      SplitAfterPiece(parts[0], sep, Join(parts[1..], sep));
      assert [parts[0]] + parts[1..] == parts;
    }
  }

  /** Joining the pieces of a split gives the string back. */
  lemma {:induction false} JoinSplit(s: string, sep: char)
    ensures Join(Split(s, sep), sep) == s
  {
    if s != [] {
      var rest := Split(s[1..], sep);
      JoinSplit(s[1..], sep);
      if s[0] == sep {
        assert Join([[]] + rest, sep) == [] + [sep] + Join(rest, sep) by {
          assert ([[]] + rest)[1..] == rest;
        }
      } else if |rest| == 1 {
        assert Join(rest, sep) == rest[0];
      } else {
        var parts := [[s[0]] + rest[0]] + rest[1..];
        assert parts[1..] == rest[1..];
        assert Join(rest, sep) == rest[0] + [sep] + Join(rest[1..], sep);
      }
    }
  }

  // ---------------------------------------------------------------------------
  // Decimal rendering of a number in a template literal
  // ---------------------------------------------------------------------------

  function DigitChar(d: nat): (c: char)
    requires d < 10
    ensures IsDigit(c)
  {
    ('0' as int + d) as char
  }

  function DigitValue(c: char): nat
    requires IsDigit(c)
  {
    c as int - '0' as int
  }

  /** `${n}` for a natural number: its decimal digits, most significant first, no leading zero. */
  function Decimal(n: nat): (r: string)
    ensures |r| >= 1
    ensures forall i :: 0 <= i < |r| ==> IsDigit(r[i])
    ensures r[0] == '0' ==> n == 0
  {
    if n < 10 then [DigitChar(n)] else Decimal(n / 10) + [DigitChar(n % 10)]
  }

  /** The number a string of decimal digits denotes. */
  function DecimalValue(s: string): nat
    requires forall i :: 0 <= i < |s| ==> IsDigit(s[i])
  {
    if s == [] then 0 else DecimalValue(s[..|s| - 1]) * 10 + DigitValue(s[|s| - 1])
  }

  /** Rendering is reversible: the digits of `n` denote `n`. */
  lemma {:induction false} DecimalRoundTrip(n: nat)
    ensures DecimalValue(Decimal(n)) == n
  {
    if n >= 10 {
      var s := Decimal(n);
      assert s[..|s| - 1] == Decimal(n / 10);
      DecimalRoundTrip(n / 10);
    }
  }
}
