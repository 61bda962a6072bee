/**
 * The names the pipeline derives from strings (src/pipeline.ts): the output directory
 * of a run, the game title read from `proposal.md`, and the repository name made from
 * that title.
 */
module Naming {
  import opened Wrappers
  import opened Text
  import opened Regex

  /** The fallback used both for a missing title and for a title that leaves no slug. */
  const Untitled := "untitled-game"

  // ---------------------------------------------------------------------------
  // slugifyForRepo
  // ---------------------------------------------------------------------------

  /** The characters `/[^a-z0-9\s-]/g` leaves in place. */
  predicate KeepForRepo(c: char) { IsLowerAlnum(c) || IsSpace(c) || c == '-' }

  /** `.replace(/^-|-$/g, '')`: one leading and one trailing dash removed. */
  function TrimDashes(s: string): string {
    var a := if s != [] && s[0] == '-' then s[1..] else s;
    if a != [] && a[|a| - 1] == '-' then a[..|a| - 1] else a
  }

  /** The lower-cased title after the three replacements, before the dashes at its ends go. */
  function CollapseForRepo(title: string): string {
    ReplaceRuns(ReplaceRuns(Filter(ToLower(title), KeepForRepo), IsSpace, '-'), IsDash, '-')
  }

  /** Only `[a-z0-9-]`. */
  predicate RepoChars(s: string) {
    forall i :: 0 <= i < |s| ==> IsLowerAlnum(s[i]) || s[i] == '-'
  }

  /** A valid repository name as `slugifyForRepo` produces it. */
  predicate IsRepoSlug(s: string) {
    && s != []
    && RepoChars(s)
    && s[0] != '-' && s[|s| - 1] != '-'
    && NoDoubled(s, '-')
  }

  /** The letters and digits of a string, in order. */
  function Alnums(s: string): string {
    Filter(s, IsLowerAlnum)
  }

  /** `slugifyForRepo(title)`. */
  function SlugifyForRepo(title: string): (slug: string)
    ensures IsRepoSlug(slug)
  {
    CollapseShape(title);
    var trimmed := TrimDashes(CollapseForRepo(title));
    TrimDashesShape(CollapseForRepo(title));
    UntitledIsSlug();
    if trimmed == "" then Untitled else trimmed
  }

  lemma UntitledIsSlug()
    ensures IsRepoSlug(Untitled)
  {
    var u := Untitled;
    assert forall i :: 0 <= i < |u| ==> (u[i] == '-' <==> i == 8);
  }

  lemma CollapseShape(title: string)
    ensures RepoChars(CollapseForRepo(title)) && NoDoubled(CollapseForRepo(title), '-')
  {
    var kept := Filter(ToLower(title), KeepForRepo);
    var dashed := ReplaceRuns(kept, IsSpace, '-');
    var collapsed := ReplaceRuns(dashed, IsDash, '-');
    ReplaceRunsChars(kept, IsSpace, '-');
    ReplaceRunsChars(dashed, IsDash, '-');
    ReplaceRunsNoDoubled(dashed, IsDash, '-');
    assert RepoChars(dashed) by {
      forall i | 0 <= i < |dashed| ensures IsLowerAlnum(dashed[i]) || dashed[i] == '-' {
        var c := dashed[i];
        if c != '-' {
          var j :| 0 <= j < |kept| && kept[j] == c;
        }
      }
    }
    forall i | 0 <= i < |collapsed| ensures IsLowerAlnum(collapsed[i]) || collapsed[i] == '-' {
      var c := collapsed[i];
      if c != '-' {
        var j :| 0 <= j < |dashed| && dashed[j] == c;
      }
    }
  }

  lemma TrimDashesShape(s: string)
    requires RepoChars(s) && NoDoubled(s, '-')
    ensures TrimDashes(s) == [] || IsRepoSlug(TrimDashes(s))
  {
    var a := if s != [] && s[0] == '-' then s[1..] else s;
    assert RepoChars(a) && NoDoubled(a, '-');
    assert a != [] ==> a[0] != '-' by {
      if a != [] && s != [] && s[0] == '-' {
        assert a[0] == s[1];
      }
    }
  }

  /** Lower-casing and the first replacement leave `[a-z0-9-]` text alone. */
  lemma RepoCharsKept(s: string)
    requires RepoChars(s)
    ensures Filter(ToLower(s), KeepForRepo) == s
  {
    assert ToLower(s) == s by {
      forall i | 0 <= i < |s| ensures ToLower(s)[i] == s[i] {
        assert !IsUpper(s[i]);
      }
    }
    assert forall i :: 0 <= i < |s| ==> KeepForRepo(s[i]);
  }

  /** The two run replacements leave a text with no white space and no doubled dash alone. */
  lemma RepoCharsCollapsed(s: string)
    requires RepoChars(s) && NoDoubled(s, '-')
    ensures ReplaceRuns(ReplaceRuns(s, IsSpace, '-'), IsDash, '-') == s
  {
    assert forall i :: 0 <= i < |s| ==> !IsSpace(s[i]);
    ReplaceRunsFixed(s, IsSpace, '-');
    ReplaceRunsFixed(s, IsDash, '-');
  }

  /** `slugifyForRepo` is the identity on repository names. */
  lemma SlugifyFixed(s: string)
    requires IsRepoSlug(s)
    ensures SlugifyForRepo(s) == s
  {
    RepoCharsKept(s);
    RepoCharsCollapsed(s);
    assert CollapseForRepo(s) == s;
    assert TrimDashes(s) == s;
  }

  /** `slugifyForRepo` is idempotent. */
  lemma SlugifyIdempotent(title: string)
    ensures SlugifyForRepo(SlugifyForRepo(title)) == SlugifyForRepo(title)
  {
    SlugifyFixed(SlugifyForRepo(title));
  }

  lemma {:induction false} FilterFilter(s: string, keep: char -> bool, k: char -> bool)
    requires forall c :: k(c) ==> keep(c)
    ensures Filter(Filter(s, keep), k) == Filter(s, k)
  {
    if s != [] {
      FilterFilter(s[1..], keep, k);
      if keep(s[0]) {
        assert ([s[0]] + Filter(s[1..], keep))[1..] == Filter(s[1..], keep);
      }
    }
  }

  lemma {:induction false} FilterDropRun(s: string, inRun: char -> bool, k: char -> bool)
    requires forall c :: inRun(c) ==> !k(c)
    ensures Filter(DropRun(s, inRun), k) == Filter(s, k)
  {
    if s != [] && inRun(s[0]) {
      FilterDropRun(s[1..], inRun, k);
    }
  }

  /** Replacing runs of non-kept characters by a non-kept character keeps the kept ones. */
  lemma {:induction false} FilterReplaceRuns(s: string, inRun: char -> bool, sub: char, k: char -> bool)
    requires forall c :: inRun(c) ==> !k(c)
    requires !k(sub)
    ensures Filter(ReplaceRuns(s, inRun, sub), k) == Filter(s, k)
    decreases |s|
  {
    if s == [] {
    } else if inRun(s[0]) {
      var d := DropRun(s, inRun);
      FilterReplaceRuns(d, inRun, sub, k);
      FilterDropRun(s, inRun, k);
      assert ([sub] + ReplaceRuns(d, inRun, sub))[1..] == ReplaceRuns(d, inRun, sub);
    } else {
      FilterReplaceRuns(s[1..], inRun, sub, k);
      assert ([s[0]] + ReplaceRuns(s[1..], inRun, sub))[1..] == ReplaceRuns(s[1..], inRun, sub);
    }
  }

  lemma TrimDashesAlnums(s: string)
    ensures Alnums(TrimDashes(s)) == Alnums(s)
  {
    var a := if s != [] && s[0] == '-' then s[1..] else s;
    if s != [] && s[0] == '-' {
      FilterConcat([s[0]], s[1..], IsLowerAlnum);
      assert [s[0]] + s[1..] == s;
    }
    if a != [] && a[|a| - 1] == '-' {
      FilterConcat(a[..|a| - 1], [a[|a| - 1]], IsLowerAlnum);
      assert a[..|a| - 1] + [a[|a| - 1]] == a;
    }
  }

  /**
   * The repository name keeps exactly the title's ASCII letters and digits (lower-cased),
   * in order; when the title has none, the name is the fallback.
   */
  lemma SlugifyKeepsAlnums(title: string)
    ensures Alnums(ToLower(title)) != [] ==> Alnums(SlugifyForRepo(title)) == Alnums(ToLower(title))
    ensures Alnums(ToLower(title)) == [] ==> SlugifyForRepo(title) == Untitled
  {
    var trimmed := TrimDashes(CollapseForRepo(title));
    TrimmedAlnums(title);
    CollapseShape(title);
    TrimDashesShape(CollapseForRepo(title));
    RepoSlugHasAlnum(trimmed);
  }

  /** Each step before the fallback keeps the letters and digits. */
  lemma TrimmedAlnums(title: string)
    ensures Alnums(TrimDashes(CollapseForRepo(title))) == Alnums(ToLower(title))
  {
    var lower := ToLower(title);
    var kept := Filter(lower, KeepForRepo);
    var dashed := ReplaceRuns(kept, IsSpace, '-');
    FilterFilter(lower, KeepForRepo, IsLowerAlnum);
    FilterReplaceRuns(kept, IsSpace, '-', IsLowerAlnum);
    FilterReplaceRuns(dashed, IsDash, '-', IsLowerAlnum);
    TrimDashesAlnums(CollapseForRepo(title));
  }

  /** A repository name has at least one letter or digit (it does not consist of dashes). */
  lemma RepoSlugHasAlnum(s: string)
    ensures IsRepoSlug(s) ==> Alnums(s) != []
  {
    if IsRepoSlug(s) {
      FilterConcat([s[0]], s[1..], IsLowerAlnum);
      assert [s[0]] + s[1..] == s;
    }
  }

  // ---------------------------------------------------------------------------
  // createOutputDir
  // ---------------------------------------------------------------------------

  predicate NotLowerAlnum(c: char) { !IsLowerAlnum(c) }

  /** One tag's part of the directory name: `t.toLowerCase().replace(/[^a-z0-9]+/g, '-')`. */
  function TagSlug(tag: string): (slug: string)
    ensures RepoChars(slug) && NoDoubled(slug, '-')
    ensures '_' !in slug
  {
    var s := ReplaceRuns(ToLower(tag), NotLowerAlnum, '-');
    ReplaceRunsChars(ToLower(tag), NotLowerAlnum, '-');
    ReplaceRunsNoDoubled(ToLower(tag), NotLowerAlnum, '-');
    s
  }

  /** A tag that is already a tag slug is its own slug, so `TagSlug` is idempotent. */
  lemma TagSlugFixed(tag: string)
    requires RepoChars(tag) && NoDoubled(tag, '-')
    ensures TagSlug(tag) == tag
  {
    assert ToLower(tag) == tag;
    ReplaceRunsFixed(tag, NotLowerAlnum, '-');
  }

  lemma TagSlugIdempotent(tag: string)
    ensures TagSlug(TagSlug(tag)) == TagSlug(tag)
  {
    TagSlugFixed(TagSlug(tag));
  }

  function TagSlugs(tags: seq<string>): (slugs: seq<string>)
    ensures |slugs| == |tags| && forall i :: 0 <= i < |tags| ==> slugs[i] == TagSlug(tags[i])
  {
    seq(|tags|, i requires 0 <= i < |tags| => TagSlug(tags[i]))
  }

  /** `new Date().toISOString().split('T')[0]`. */
  function DatePart(iso: string): (date: string)
    ensures |date| <= |iso| && date == iso[..|date|] && 'T' !in date
    ensures |date| < |iso| ==> iso[|date|] == 'T'
  {
    SplitFirst(iso, 'T');
    Split(iso, 'T')[0]
  }

  /** The last path component of `createOutputDir`: `${date}_${slugs.join('_')}`. */
  function OutputDirName(date: string, tags: seq<string>): string {
    date + "_" + Join(TagSlugs(tags), '_')
  }

  /** `createOutputDir(tags)` under the clock reading `iso`: `resolve(outputsDir, dirName)`. */
  function OutputDir(outputsDir: string, iso: string, tags: seq<string>): string {
    outputsDir + "/" + OutputDirName(DatePart(iso), tags)
  }

  /**
   * The directory name splits at `_` into the date and one slug per tag, in order:
   * no slug contains `_`, so for a non-empty tag list the name determines the date and
   * the slugs. An empty tag list leaves a trailing `_`, which splits into an empty piece.
   */
  lemma OutputDirNameFields(date: string, tags: seq<string>)
    requires '_' !in date
    ensures tags != [] ==> Split(OutputDirName(date, tags), '_') == [date] + TagSlugs(tags)
    ensures tags == [] ==> Split(OutputDirName(date, tags), '_') == [date, ""]
  {
    var slugs := TagSlugs(tags);
    if tags == [] {
      var parts := [date, ""];
      assert Join(parts[1..], '_') == "";
      assert Join(parts, '_') == OutputDirName(date, tags);
      SplitJoin(parts, '_');
    } else {
      var parts := [date] + slugs;
      assert parts[1..] == slugs;
      assert Join(parts, '_') == OutputDirName(date, tags);
      forall k | 0 <= k < |parts| ensures '_' !in parts[k] {
        if k > 0 {
          assert parts[k] == TagSlug(tags[k - 1]);
        }
      }
      SplitJoin(parts, '_');
    }
  }

  /** No tags and the single empty tag give the same directory name. */
  lemma EmptyTagListName(date: string)
    ensures OutputDirName(date, []) == OutputDirName(date, [""])
  {
    assert ToLower("") == "";
    assert TagSlugs([""]) == [""];
  }

  // ---------------------------------------------------------------------------
  // extractGameTitle
  // ---------------------------------------------------------------------------

  /** A title as the pipeline uses it: a single line, without white space at either end. */
  predicate IsTrimmedLine(t: string) {
    && (forall i :: 0 <= i < |t| ==> IsLineChar(t[i]))
    && (t != [] ==> !IsSpace(t[0]) && !IsSpace(t[|t| - 1]))
  }

  /** Trimming a single line leaves a trimmed single line. */
  lemma TrimLine(s: string)
    requires forall i :: 0 <= i < |s| ==> IsLineChar(s[i])
    ensures IsTrimmedLine(Trim(s))
  {
    var lo, hi := TrimSlice(s);
  }

  /**
   * `extractGameTitle`: `proposal` is the content of `proposal.md`, `None` when it does not
   * exist. The capture of the first `/^#\s+(.+)$/m` match, trimmed; the fallback otherwise.
   */
  function ExtractGameTitle(proposal: Option<string>): (title: string)
    ensures proposal.None? ==> title == Untitled
    ensures proposal.Some? && FirstMatch(Heading, proposal.value).None? ==> title == Untitled
    ensures IsTrimmedLine(title)
  {
    match proposal
    case None => Untitled
    case Some(content) =>
      match FirstMatch(Heading, content)
      case Some(m) =>
        TrimLine(m);
        Trim(m)
      case None => Untitled
  }

  /**
   * The title is the first line of the form `#`, white space, text: lines before it that
   * start with `#` but not with `#` and white space (`## Overview`, `#tag`) never match.
   */
  lemma TitleIsFirstHeading(pre: string, ws: string, t: string, rest: string)
    requires pre == [] || IsLineTerminator(pre[|pre| - 1])
    requires NoHeadingLine(pre)
    requires ws != [] && forall j :: 0 <= j < |ws| ==> IsSpace(ws[j])
    requires t != [] && !IsSpace(t[0]) && forall j :: 0 <= j < |t| ==> IsLineChar(t[j])
    requires rest == [] || IsLineTerminator(rest[0])
    ensures ExtractGameTitle(Some(pre + ("#" + ws + t + rest))) == Trim(t)
  {
    HeadingAfterPreamble(pre, ws, t, rest);
    TitleOfMatch(pre + ("#" + ws + t + rest), t);
  }

  lemma TitleOfMatch(content: string, m: string)
    requires FirstMatch(Heading, content) == Some(m)
    ensures ExtractGameTitle(Some(content)) == Trim(m)
  {
  }

  /** An ordinary proposal: the first `# ` line gives the title, surrounding blanks dropped. */
  lemma TitleExample()
    ensures ExtractGameTitle(Some("Draft\n# Neon Kitchen \nBody")) == "Neon Kitchen"
  {
    var s := "Draft\n# Neon Kitchen \nBody";
    var t := "Neon Kitchen ";
    ExampleHeading();
    ExampleTrim();
    TitleOfMatch(s, t);
  }

  lemma ExampleHeading()
    ensures FirstMatch(Heading, "Draft\n# Neon Kitchen \nBody") == Some("Neon Kitchen ")
  {
    var t := "Neon Kitchen ";
    assert forall j :: 0 <= j < |t| ==> IsLineChar(t[j]);
    assert "Draft\n" + ("#" + " " + t + "\nBody") == "Draft\n# Neon Kitchen \nBody";
    NoHeadingLineOf("Draft\n");
    HeadingAfterPreamble("Draft\n", " ", t, "\nBody");
  }

  lemma ExampleTrim()
    ensures Trim("Neon Kitchen ") == "Neon Kitchen"
  {
    assert "Neon Kitchen" + [' '] == "Neon Kitchen ";
    TrimTrailingBlank("Neon Kitchen", ' ');
  }

  /**
   * A `##` section heading before the title line is skipped: any single line after `# `
   * that starts with a non-space gives the title.
   */
  lemma TitleAfterSubheading(t: string)
    requires t != [] && !IsSpace(t[0]) && forall j :: 0 <= j < |t| ==> IsLineChar(t[j])
    ensures ExtractGameTitle(Some("## Overview\n# " + t)) == Trim(t)
  {
    SubheadingPreamble(t);
    TitleIsFirstHeading("## Overview\n", " ", t, []);
  }

  lemma SubheadingPreamble(t: string)
    ensures NoHeadingLine("## Overview\n")
    ensures "## Overview\n" + ("#" + " " + t + []) == "## Overview\n# " + t
  {
    var l := "## Overview";
    assert forall j :: 0 <= j < |l| ==> IsLineChar(l[j]);
    NoHeadingLineLine(l, []);
    assert l + "\n" + [] == "## Overview\n";
  }

  /**
   * `\s+` also matches line ends, so a bare `#` followed by a new line takes the next line
   * as the title, whatever it starts with.
   */
  lemma TitleAcrossLines()
    ensures ExtractGameTitle(Some("#\n## Rules")) == "## Rules"
  {
    HeadingOnNextLine();
    TrimFixed("## Rules");
    TitleOfMatch("#\n## Rules", "## Rules");
  }

  lemma HeadingOnNextLine()
    ensures FirstMatch(Heading, "#\n## Rules") == Some("## Rules")
  {
    var s := "#\n## Rules";
    HeadingAtLine(s, 0, 2, 10);
    assert s[2..10] == "## Rules";
    FirstMatchIs(Heading, s, 0);
  }

  /**
   * A `#` followed only by blanks at the end of the text matches by backtracking: the
   * capture is the last blank, and the title is empty rather than the fallback.
   */
  lemma TitleOfBlankHeading()
    ensures ExtractGameTitle(Some("#  ")) == ""
  {
    var s := "#  ";
    RunEndAt(s, 1, 3, IsSpace);
    RunEndAt(s, 2, 3, IsLineChar);
    assert LastLineChar(s, 2, 3) == Some(2);
    assert s[2..3] == " ";
    assert HeadingAt(s, 0) == Some(" ");
    assert " "[1..] == [];
    FirstMatchIs(Heading, s, 0);
  }
}
