/**
 * The ralph-loop state file of phase 6 (src/pipeline.ts): while `.claude/ralph-loop.local.md`
 * exists in the output directory, the agent's stop hook re-runs the same prompt. The
 * pipeline writes the file before the implementer runs and removes what is left afterwards.
 */
module LoopState {
  import opened Wrappers
  import opened Text
  import opened Regex

  /** The phrase the implementer prints to end the loop. */
  const CompletionPromise := "IMPLEMENTATION COMPLETE"

  /** `PHASE6_MAX_ITERATIONS`. */
  const MaxIterations: nat := 10

  /** The lines of the state file: front matter, a blank line, then the prompt. */
  function StateLines(prompt: string, maxIterations: nat, promise: string, startedAt: string): seq<string> {
    [ "---",
      "active: true",
      "iteration: 1",
      "max_iterations: " + Decimal(maxIterations),
      "completion_promise: \"" + promise + "\"",
      "started_at: \"" + startedAt + "\"",
      "---",
      "",
      prompt ]
  }

  /** The content `createRalphLoopState` writes; `startedAt` is the clock's ISO reading. */
  function StateContent(prompt: string, maxIterations: nat, promise: string, startedAt: string): string {
    Join(StateLines(prompt, maxIterations, promise, startedAt), '\n')
  }

  /** The iteration `cleanupRalphLoopState` reports: the first `iteration:` line's number, or `?`. */
  function IterationOf(content: string): (n: string)
    ensures n == "?" || (n != [] && forall i :: 0 <= i < |n| ==> IsDigit(n[i]))
    ensures FirstMatch(IterationLine, content).None? <==> n == "?"
  {
    match FirstMatch(IterationLine, content)
    case Some(d) =>
      assert FirstMatchAt(IterationLine, content, 0).Some?;
      d
    case None => "?"
  }

  /** The state file, cut after its third line. */
  lemma StateContentShape(prompt: string, maxIterations: nat, promise: string, startedAt: string)
    ensures StateContent(prompt, maxIterations, promise, startedAt)
      == Preamble() + (IterationKey + " " + "1" + ("\n" + Join(StateLines(prompt, maxIterations, promise, startedAt)[3..], '\n')))
  {
    var lines := StateLines(prompt, maxIterations, promise, startedAt);
    var tail := Join(lines[3..], '\n');
    JoinCons(lines, '\n');
    JoinCons(lines[1..], '\n');
    JoinCons(lines[2..], '\n');
    assert lines[1..][1..] == lines[2..] && lines[2..][1..] == lines[3..];
    IterationLiteral();
    PreambleThen("iteration: 1" + "\n" + tail);
  }

  lemma IterationLiteral()
    ensures "iteration: 1" == IterationKey + " " + "1"
  {
  }

  lemma PreambleThen(x: string)
    ensures "---" + "\n" + ("active: true" + "\n" + x) == Preamble() + x
  {
  }

  /** The two lines before the iteration line. */
  function Preamble(): string {
    "---" + "\n" + ("active: true" + "\n" + "")
  }

  /** No line of the preamble starts like the iteration line. */
  lemma PreambleLines()
    ensures NoLineStartsWith(Preamble(), 'i', true)
  {
    NoLineStartsWithLine("active: true", 'i', "");
    NoLineStartsWithLine("---", 'i', "active: true" + "\n" + "");
  }

  /** A freshly written state file reports iteration 1, whatever the prompt contains. */
  lemma FreshStateIteration(prompt: string, maxIterations: nat, promise: string, startedAt: string)
    ensures IterationOf(StateContent(prompt, maxIterations, promise, startedAt)) == "1"
  {
    StateContentShape(prompt, maxIterations, promise, startedAt);
    var rest := "\n" + Join(StateLines(prompt, maxIterations, promise, startedAt)[3..], '\n');
    PreambleLines();
    IterationAfterPreamble(Preamble(), " ", "1", rest);
  }

  /** What `cleanupRalphLoopState` did: the iteration it logged, and the file left behind. */
  datatype Cleanup = Cleanup(loggedIteration: Option<string>, remaining: Option<string>)

  /**
   * `cleanupRalphLoopState`: `file` is the state file's content when it exists; `unlinkOk`
   * is whether deleting it succeeds (a failure is swallowed).
   */
  function CleanupState(file: Option<string>, unlinkOk: bool): (c: Cleanup)
    ensures file.None? ==> c == Cleanup(None, None)
    ensures file.Some? ==> c.loggedIteration == Some(IterationOf(file.value))
    ensures c.remaining.Some? <==> file.Some? && !unlinkOk
    ensures c.remaining.Some? ==> c.remaining == file
  {
    match file
    case None => Cleanup(None, None)
    case Some(content) =>
      Cleanup(Some(IterationOf(content)), if unlinkOk then None else Some(content))
  }

  /**
   * If the stop hook never removed the file the pipeline wrote (the agent ended
   * abnormally), cleanup logs iteration 1 and removes it unless deletion fails.
   */
  lemma CleanupAfterAbnormalEnd(prompt: string, maxIterations: nat, promise: string, startedAt: string, unlinkOk: bool)
    ensures var c := CleanupState(Some(StateContent(prompt, maxIterations, promise, startedAt)), unlinkOk);
      c.loggedIteration == Some("1") && (c.remaining.None? <==> unlinkOk)
  {
    FreshStateIteration(prompt, maxIterations, promise, startedAt);
  }
}
