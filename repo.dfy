/**
 * The git and GitHub steps of the pipeline (src/pipeline.ts). Commands are not run:
 * each method returns the commands it issues, in order, and the outcome of every
 * command is a parameter.
 */
module Repo {
  import opened Wrappers
  import opened Text

  /** A command line run in the output directory. */
  datatype Command = Command(program: string, args: seq<string>)

  /** How a command ended: normally with its standard output, or by throwing. */
  datatype Outcome = Exited(stdout: string) | Threw(message: string)

  const InitialCommitMessage := "feat: Phase 1 - game proposal & pipeline assets"

  function GitInit(): Command { Command("git", ["init"]) }
  function GitAddAll(): Command { Command("git", ["add", "."]) }
  function GitCommit(message: string): Command { Command("git", ["commit", "-m", message]) }
  function GitStatus(): Command { Command("git", ["status", "--porcelain"]) }
  function GitPush(): Command { Command("git", ["push"]) }
  function GhRepoCreate(name: string): Command {
    Command("gh", ["repo", "create", name, "--public", "--source", ".", "--push"])
  }
  function GhRepoUrl(): Command { Command("gh", ["repo", "view", "--json", "url", "-q", ".url"]) }

  // ---------------------------------------------------------------------------
  // The shell line
  // ---------------------------------------------------------------------------

  /** The program and its arguments, as the command is meant to be run. */
  function Argv(c: Command): seq<string> { [c.program] + c.args }

  /**
   * What `execFile(program, args, { shell: true })` hands to `/bin/sh -c`: the program and
   * its arguments joined by single spaces, without any quoting.
   */
  function ShellLine(c: Command): string { Join(Argv(c), ' ') }

  /**
   * Splitting the shell line at spaces gives back the intended argument list exactly when
   * no argument contains a space.
   */
  lemma ShellWords(c: Command)
    ensures Split(ShellLine(c), ' ') == Argv(c) <==> forall k :: 0 <= k < |Argv(c)| ==> ' ' !in Argv(c)[k]
  {
    if forall k :: 0 <= k < |Argv(c)| ==> ' ' !in Argv(c)[k] {
      SplitJoin(Argv(c), ' ');
    }
  }

  /** A commit message with a space in it does not reach git as the single `-m` argument. */
  lemma SpacedMessageSplits(message: string)
    requires ' ' in message
    ensures Split(ShellLine(GitCommit(message)), ' ') != Argv(GitCommit(message))
  {
    ShellWords(GitCommit(message));
    assert Argv(GitCommit(message))[3] == message;
  }

  /** Whether a command is a `gh repo create`, and for which name. */
  predicate IsCreate(c: Command) {
    c.program == "gh" && |c.args| == 7 && c.args[0] == "repo" && c.args[1] == "create"
  }

  /** The names `gh repo create` was issued with, in order. */
  function CreatedNames(cmds: seq<Command>): (names: seq<string>)
    ensures |names| <= |cmds|
  {
    if cmds == [] then []
    else (if IsCreate(cmds[0]) then [cmds[0].args[2]] else []) + CreatedNames(cmds[1..])
  }

  lemma {:induction false} CreatedNamesAppend(a: seq<Command>, b: seq<Command>)
    ensures CreatedNames(a + b) == CreatedNames(a) + CreatedNames(b)
  {
    if a == [] {
      assert a + b == b;
    } else {
      assert (a + b)[1..] == a[1..] + b;
      CreatedNamesAppend(a[1..], b);
    }
  }

  // ---------------------------------------------------------------------------
  // initGameRepo
  // ---------------------------------------------------------------------------

  /** The outcomes of the commands `initGameRepo` may run. */
  datatype InitOutcomes = InitOutcomes(
    init: Outcome, add: Outcome, commit: Outcome, create: Outcome, retry: Outcome, view: Outcome)

  datatype RepoInit = RepoInit(success: bool, repoUrl: Option<string>, error: Option<string>)

  /** The name of the second attempt: the title slug with the date appended. */
  function RetryName(repoName: string, date: string): string {
    repoName + "-" + date
  }

  /**
   * The steps whose failure ends `initGameRepo`, in order, with their commands: the first
   * create's failure is caught, so it stands here only when the retry is not needed.
   */
  function InitSteps(repoName: string, date: string, o: InitOutcomes): seq<(Command, Outcome)> {
    if o.create.Threw? then
      [ (GitInit(), o.init), (GitAddAll(), o.add), (GitCommit(InitialCommitMessage), o.commit),
        (GhRepoCreate(repoName), Exited("")), (GhRepoCreate(RetryName(repoName, date)), o.retry),
        (GhRepoUrl(), o.view) ]
    else
      [ (GitInit(), o.init), (GitAddAll(), o.add), (GitCommit(InitialCommitMessage), o.commit),
        (GhRepoCreate(repoName), o.create),
        (GhRepoUrl(), o.view) ]
  }

  /** The number of steps that run: up to and including the first that throws. */
  function Ran(steps: seq<(Command, Outcome)>): (k: nat)
    ensures k <= |steps|
    ensures k == 0 <==> steps == []
    ensures forall j :: 0 <= j < k - 1 ==> steps[j].1.Exited?
    ensures k < |steps| ==> k > 0 && steps[k - 1].1.Threw?
  {
    if steps == [] then 0
    else if steps[0].1.Threw? then 1
    else 1 + Ran(steps[1..])
  }

  /** The step that throws first ends the run. */
  lemma {:induction false} RanUpTo(steps: seq<(Command, Outcome)>, i: nat)
    requires i < |steps| && steps[i].1.Threw?
    requires forall j :: 0 <= j < i ==> steps[j].1.Exited?
    ensures Ran(steps) == i + 1
  {
    if i > 0 {
      RanUpTo(steps[1..], i - 1);
    }
  }

  /** A run in which nothing throws runs every step. */
  lemma {:induction false} RanAll(steps: seq<(Command, Outcome)>)
    requires forall j :: 0 <= j < |steps| ==> steps[j].1.Exited?
    ensures Ran(steps) == |steps|
  {
    if steps != [] {
      RanAll(steps[1..]);
    }
  }

  /** The commands of the first `k` steps, in order. */
  predicate IssuedSteps(issued: seq<Command>, steps: seq<(Command, Outcome)>, k: nat)
  {
    k <= |steps| && |issued| == k && forall j :: 0 <= j < k ==> issued[j] == steps[j].0
  }

  /**
   * `initGameRepo(outputDir, repoName, date)`: `git init`, `git add .`, the first commit,
   * `gh repo create` (once more under the date-suffixed name if that throws), then the URL
   * lookup. Any other throw ends it with the thrown message.
   */
  method InitGameRepo(repoName: string, date: string, o: InitOutcomes) returns (r: RepoInit, issued: seq<Command>)
    ensures var steps := InitSteps(repoName, date, o);
      IssuedSteps(issued, steps, Ran(steps))
    ensures r.success <==>
      o.init.Exited? && o.add.Exited? && o.commit.Exited? && (o.create.Exited? || o.retry.Exited?) && o.view.Exited?
    ensures r.success ==> r.repoUrl == Some(Trim(o.view.stdout)) && r.error.None?
    ensures !r.success ==> r.repoUrl.None? && r.error.Some?
    ensures var steps := InitSteps(repoName, date, o);
      !r.success ==> steps[Ran(steps) - 1].1.Threw? && r.error == Some(steps[Ran(steps) - 1].1.message)
  {
    ghost var steps := InitSteps(repoName, date, o);
    issued := [GitInit()];
    if o.init.Threw? {
      RanUpTo(steps, 0);
      return RepoInit(false, None, Some(o.init.message)), issued;
    }
    issued := issued + [GitAddAll()];
    if o.add.Threw? {
      RanUpTo(steps, 1);
      return RepoInit(false, None, Some(o.add.message)), issued;
    }
    issued := issued + [GitCommit(InitialCommitMessage)];
    if o.commit.Threw? {
      RanUpTo(steps, 2);
      return RepoInit(false, None, Some(o.commit.message)), issued;
    }
    var finalName := repoName;
    issued := issued + [GhRepoCreate(finalName)];
    if o.create.Threw? {
      finalName := RetryName(repoName, date);
      issued := issued + [GhRepoCreate(finalName)];
      if o.retry.Threw? {
        RanUpTo(steps, 4);
        return RepoInit(false, None, Some(o.retry.message)), issued;
      }
    }
    issued := issued + [GhRepoUrl()];
    if o.view.Threw? {
      RanUpTo(steps, |steps| - 1);
      return RepoInit(false, None, Some(o.view.message)), issued;
    }
    RanAll(steps);
    r := RepoInit(true, Some(Trim(o.view.stdout)), None);
  }

  /**
   * `gh repo create` runs at most twice: first under the title slug, and under the
   * date-suffixed name only when the first attempt threw.
   */
  lemma CreateAttempts(repoName: string, date: string, o: InitOutcomes, issued: seq<Command>)
    requires var steps := InitSteps(repoName, date, o); IssuedSteps(issued, steps, Ran(steps))
    ensures var names := CreatedNames(issued);
      && |names| <= 2
      && (|names| >= 1 <==> o.init.Exited? && o.add.Exited? && o.commit.Exited?)
      && (|names| >= 1 ==> names[0] == repoName)
      && (|names| == 2 <==> |names| >= 1 && o.create.Threw?)
      && (|names| == 2 ==> names[1] == RetryName(repoName, date))
  {
    var steps := InitSteps(repoName, date, o);
    var k := |issued|;
    var setup := issued[..if k <= 3 then k else 3];
    NoCreates(setup);
    assert steps[0].1 == o.init && steps[1].1 == o.add && steps[2].1 == o.commit;
    if k <= 3 {
      assert issued == setup;
      assert |steps| >= 5 && steps[k - 1].1.Threw?;
    } else {
      var tail := issued[3..];
      assert issued == setup + tail;
      CreatedNamesAppend(setup, tail);
      if o.create.Threw? {
        RetryCreates(repoName, date, tail);
      } else {
        DirectCreates(repoName, tail);
      }
    }
  }

  /** After a failed first attempt, the issued commands from the fourth on. */
  lemma RetryCreates(repoName: string, date: string, tail: seq<Command>)
    requires |tail| == 2 || |tail| == 3
    requires tail[0] == GhRepoCreate(repoName) && tail[1] == GhRepoCreate(RetryName(repoName, date))
    requires |tail| == 3 ==> tail[2] == GhRepoUrl()
    ensures CreatedNames(tail) == [repoName, RetryName(repoName, date)]
  {
    var first, second := GhRepoCreate(repoName), GhRepoCreate(RetryName(repoName, date));
    CreatedOne(repoName);
    CreatedOne(RetryName(repoName, date));
    CreatedNamesAppend([first], [second]);
    assert [first] + [second] == [first, second];
    if |tail| == 2 {
      assert tail == [first, second];
    } else {
      UrlCreatesNothing();
      assert tail == [first, second] + [GhRepoUrl()];
      CreatedNamesAppend([first, second], [GhRepoUrl()]);
    }
  }

  /** After a successful first attempt, the issued commands from the fourth on. */
  lemma DirectCreates(repoName: string, tail: seq<Command>)
    requires 1 <= |tail| <= 2 && tail[0] == GhRepoCreate(repoName)
    requires |tail| == 2 ==> tail[1] == GhRepoUrl()
    ensures CreatedNames(tail) == [repoName]
  {
    CreatedOne(repoName);
    if |tail| == 2 {
      UrlCreatesNothing();
      assert tail == [GhRepoCreate(repoName)] + [GhRepoUrl()];
      CreatedNamesAppend([GhRepoCreate(repoName)], [GhRepoUrl()]);
    } else {
      assert tail == [GhRepoCreate(repoName)];
    }
  }

  lemma {:induction false} NoCreates(cmds: seq<Command>)
    requires forall j :: 0 <= j < |cmds| ==> !IsCreate(cmds[j])
    ensures CreatedNames(cmds) == []
  {
    if cmds != [] {
      NoCreates(cmds[1..]);
    }
  }

  lemma CreatedOne(name: string)
    ensures CreatedNames([GhRepoCreate(name)]) == [name]
  {
    assert [GhRepoCreate(name)][1..] == [];
  }

  lemma UrlCreatesNothing()
    ensures CreatedNames([GhRepoUrl()]) == []
  {
    assert [GhRepoUrl()][1..] == [];
    assert GhRepoUrl().args[1] == "view";
  }

  // ---------------------------------------------------------------------------
  // commitPhase and pushRepo
  // ---------------------------------------------------------------------------

  /** The outcomes of the commands `commitPhase` may run. */
  datatype CommitOutcomes = CommitOutcomes(add: Outcome, status: Outcome, commit: Outcome)

  /** Whether `commitPhase` makes a commit: staging, the status check and the commit succeed, on a changed tree. */
  predicate CommitMade(o: CommitOutcomes) {
    o.add.Exited? && o.status.Exited? && Trim(o.status.stdout) != "" && o.commit.Exited?
  }

  /**
   * `commitPhase(outputDir, phaseName, message)`: stage everything, and commit only when
   * `git status --porcelain` reports a change. Every failure is logged and swallowed, so
   * the method always returns normally; `committed` says whether a commit was made.
   */
  method CommitPhase(message: string, o: CommitOutcomes) returns (issued: seq<Command>, committed: bool)
    ensures |issued| >= 1 && issued[0] == GitAddAll()
    ensures (|issued| >= 2) <==> o.add.Exited?
    ensures |issued| >= 2 ==> issued[1] == GitStatus()
    ensures GitCommit(message) in issued <==> o.add.Exited? && o.status.Exited? && Trim(o.status.stdout) != ""
    ensures |issued| == 3 ==> issued[2] == GitCommit(message)
    ensures |issued| <= 3
    ensures committed <==> GitCommit(message) in issued && o.commit.Exited?
    ensures committed <==> CommitMade(o)
    ensures forall c :: c in issued && c.args != [] && c.args[0] == "commit" ==> Argv(c) == ["git", "commit", "-m", message]
  {
    issued := [GitAddAll()];
    committed := false;
    if o.add.Threw? { return; }
    issued := issued + [GitStatus()];
    if o.status.Threw? { return; }
    if Trim(o.status.stdout) == "" { return; }
    issued := issued + [GitCommit(message)];
    if o.commit.Threw? { return; }
    committed := true;
  }

  /** A clean working tree (only white space in the porcelain output) is never committed. */
  lemma CleanTreeNotCommitted(o: CommitOutcomes)
    requires o.status.Exited?
    requires forall i :: 0 <= i < |o.status.stdout| ==> IsSpace(o.status.stdout[i])
    ensures Trim(o.status.stdout) == ""
    ensures !CommitMade(o)
  {
    var lo, hi := TrimSlice(o.status.stdout);
  }

  /** `pushRepo(outputDir)`: one `git push`; a failure is logged and swallowed. */
  method PushRepo(o: Outcome) returns (issued: seq<Command>, pushed: bool)
    ensures issued == [GitPush()]
    ensures pushed <==> o.Exited?
  {
    issued := [GitPush()];
    pushed := o.Exited?;
  }
}
