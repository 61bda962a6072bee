# SteamTagMixer orchestrator, modelled in Dafny

SteamTagMixer turns a random combination of Steam store tags into a playable web-game
prototype. An orchestrator drives six AI agent phases in order:
- a creative director's proposal;
- a design lead's guides;
- the director's review;
- the lead's dispatch of detailed specs;
- the lead's spec review;
- the implementation.

Each phase works in one output directory. The orchestrator writes its progress to
`meta.json`. After the first phase it may publish the directory as a GitHub repository,
then commit every later phase and push at the end.

This project models the core of that orchestrator (`src/pipeline.ts`) and the tag
sampler (`src/tags.ts`). It proves what they promise.

- `Tags` covers three things:
  - `randomInt` over an explicit draw of `Math.random()`;
  - `sampleWithoutReplacement`, an in-place swap-and-pop loop over an array copy, proved against its specification `Sample`;
  - `selectRandomTags`.
- `Naming` covers the pure string helpers:
  - `slugifyForRepo`;
  - the output directory name built in `createOutputDir`;
  - `extractGameTitle`.

  They rest on:
  - `Text`, the JavaScript string primitives they use;
  - `Regex`, a leftmost-match, backtracking model of the two multiline regular expressions the source runs.
- `LoopState` covers the ralph-loop state file that phase 6 writes and cleans up.
- `Repo` covers `initGameRepo`, `commitPhase` and `pushRepo`. Each returns the git/gh commands it issues, as the argument lists the code passes, and every command's outcome is a parameter. Because every call passes `shell: true`, what actually runs is those arguments joined by spaces, without quoting, as one `/bin/sh` line (`Repo.ShellLine`; see "## Findings").
- `Pipeline` covers `runPipeline` as a method. It updates the run's `result`, the `meta` record and the `shouldCreateRepo` flag step by step.
  - Everything the run reads from outside comes from a `World` value: agent reports, clock readings, random draws, the proposal file and command outcomes.
  - Everything it does to the outside is an ordered trace of effects: metadata saves, agent invocations, loop-state writes and clean-ups, repository creation, commits and the push.
  - The method is proved to return exactly the reference result `ResultOf` and the reference trace `Trace`.
- `RunProperties` proves the rules of a whole run on those reference definitions:
  - fail-fast order;
  - what `result` records;
  - the rules `meta.json` follows;
  - the publishing rules;
  - the loop state around phase 6.

The six phase blocks of `runPipeline` differ only in:
- their agent's `maxTurns`;
- their error label and commit message;
- phase 1's repository step;
- phase 6's loop-state handling.

The model therefore runs them as one loop over the phase order, with those differences as tables and branches.

Where the documentation and the code disagree, the model follows the code:
- On a phase failure the code does not write `meta.json` again. Its last save flags only the phases that succeeded, and no error is stored in it.
- After phase 6 succeeds there is no separate save. The completion save flags all six phases.

The greedy `\s+` of `/^#\s+(.+)$/m` crosses line ends, and the model follows the regular expression exactly:
- A lone `#` line followed by `## Rules` yields the title `## Rules` (`Naming.TitleAcrossLines`).
- A `#` followed only by blanks at the end of the file yields the empty title (`Naming.TitleOfBlankHeading`), which `slugifyForRepo` then turns into `untitled-game`.

## Model

| member | source | states |
|---|---|---|
| Naming.SlugifyForRepo | src/pipeline.ts:83-91 | The repository name is never empty, uses only `[a-z0-9-]`, has no leading or trailing `-` and no `--` |
| Naming.SlugifyIdempotent | src/pipeline.ts:83-91 | Slugifying a slug returns it unchanged |
| Naming.SlugifyFixed | src/pipeline.ts:83-91 | Every valid repository slug is a fixed point of `slugifyForRepo` |
| Naming.SlugifyKeepsAlnums | src/pipeline.ts:83-91 | The slug keeps every letter and digit of the lower-cased title, in order; when the title has none, the slug is `untitled-game` |
| Naming.TagSlug | src/pipeline.ts:55 | A tag's slug uses only `[a-z0-9-]`, never holds `--` and never holds `_` |
| Naming.TagSlugFixed | src/pipeline.ts:55 | A tag already in slug form is its own slug |
| Naming.TagSlugIdempotent | src/pipeline.ts:55 | Slugging a tag slug changes nothing |
| Naming.DatePart | src/pipeline.ts:53 | The date is the prefix of the ISO clock reading before its first `T` |
| Naming.OutputDirNameFields | src/pipeline.ts:52-57 | For a non-empty tag list, splitting the directory name at `_` gives back the date and each tag slug, in order, so the name determines both; for no tags it gives the date and one empty piece |
| Naming.EmptyTagListName | src/pipeline.ts:52-57 | No tags and the single empty tag give the same directory name, so the name does not determine the tags when there are none |
| Naming.ExtractGameTitle | src/pipeline.ts:71-77 | A missing proposal or one with no heading match gives `untitled-game`; any title is a single trimmed line |
| Naming.TitleIsFirstHeading | src/pipeline.ts:75-76 | After lines none of which starts with `#` followed by white space (`## Overview` and `#tag` are allowed), a `#`, white space and a line give that line, trimmed |
| Naming.TitleAfterSubheading | src/pipeline.ts:71-77 | After a `## Overview` line, `# ` and any single line starting with a non-space give that line, trimmed: the `##` line is skipped |
| Naming.TitleExample | src/pipeline.ts:71-77 | `Draft\n# Neon Kitchen \nBody` gives `Neon Kitchen` |
| Naming.TitleAcrossLines | src/pipeline.ts:75 | `#\n## Rules` gives `## Rules`: the white space after `#` crosses the line end |
| Naming.TitleOfBlankHeading | src/pipeline.ts:75-76 | `#` followed by blanks at the end of the file gives the empty title, not `untitled-game` |
| Naming.TrimLine | src/pipeline.ts:76 | Trimming one line gives a trimmed single line |
| Regex.DoubleHashNoHeading | src/pipeline.ts:75 | A `##` line never matches the heading pattern where it starts |
| Regex.FirstMatchAt | src/pipeline.ts:75 | The leftmost position at which the pattern matches: every earlier position fails |
| Regex.FirstMatchIs | src/pipeline.ts:75 | The first position that matches, all earlier ones failing, gives the match |
| Regex.HeadingAfterPreamble | src/pipeline.ts:75 | A heading line after text none of whose lines starts with `#` and white space is what the match captures |
| Regex.HeadingPreambleSkipped | src/pipeline.ts:75 | No position in text none of whose lines starts with `#` and white space starts a heading match |
| Regex.NoHeadingLineLine | src/pipeline.ts:75 | A line not starting with `#` and white space, before text without such lines, adds no such line |
| Regex.IterationAfterPreamble | src/pipeline.ts:555-556 | An `iteration:` line after text none of whose lines starts with `i` gives its maximal digit run |
| Text.ToLower | src/pipeline.ts:85 | Lower-casing keeps the length and maps each character; no upper-case ASCII letter is left |
| Text.Filter | src/pipeline.ts:86 | Removing the characters outside a class leaves only characters of the class, drawn from the input, and is no longer than the input; a string of class characters is unchanged |
| Text.FilterCounts | src/pipeline.ts:86 | Each character of the class occurs in the result as often as in the input; no other character occurs |
| Text.FilterConcat | src/pipeline.ts:86 | Filtering a concatenation concatenates the filtered parts, so the kept characters stay in order |
| Text.ReplaceRunsNoDoubled | src/pipeline.ts:87-88 | Replacing runs of a class with a member of that class never leaves that character twice in a row |
| Text.ReplaceRunsFixed | src/pipeline.ts:87-88 | A string whose class characters are single copies of the replacement is left unchanged |
| Text.ReplaceRunsChars | src/pipeline.ts:87-88 | Every result character is the replacement or an input character outside the class |
| Text.TrimSlice | src/pipeline.ts:76 | `trim` returns the slice between leading and trailing white space, ending on non-spaces |
| Text.TrimFixed | src/pipeline.ts:76 | `trim` leaves an already trimmed string unchanged |
| Text.Split | src/pipeline.ts:53 | `split` gives at least one piece, none holding the separator |
| Text.SplitJoin | src/pipeline.ts:54-57 | Splitting a join of separator-free pieces gives the pieces back |
| Text.JoinSplit | src/pipeline.ts:53 | Joining the pieces of a split gives the string back |
| Text.SplitFirst | src/pipeline.ts:53 | The first piece is the prefix before the first separator |
| Text.DecimalRoundTrip | src/pipeline.ts:536 | The decimal rendering of a number denotes that number |
| LoopState.IterationOf | src/pipeline.ts:555-556 | The logged iteration is `?` exactly when no `iteration:` line matches; otherwise a non-empty digit string |
| LoopState.FreshStateIteration | src/pipeline.ts:532-543 | The state file as written, whatever the prompt, reports iteration `1` |
| LoopState.CleanupState | src/pipeline.ts:551-566 | With no file nothing is logged or left; with a file its iteration is logged and the file remains only when deletion fails |
| LoopState.CleanupAfterAbnormalEnd | src/pipeline.ts:547-566 | A state file the stop hook left behind logs iteration `1` and is removed unless deletion fails |
| Tags.RandomInt | src/tags.ts:30-32 | The result lies in `[min, max]` when `min <= max`, and in `(max, min]` when the bounds are swapped |
| Tags.RandomIntReaches | src/tags.ts:30-32 | Every value of `[min, max]` is produced by some draw |
| Tags.Steps | src/tags.ts:40 | The loop runs `n` times when `n` fits the input, `length` times when `n` exceeds it, and not at all for `n <= 0` |
| Tags.SwapPopMultiset | src/tags.ts:43-44 | Swap-and-pop removes exactly the picked element from the pool |
| Tags.PickPermutation | src/tags.ts:41-44 | One iteration keeps picks plus pool the same multiset |
| Tags.PicksPermutation | src/tags.ts:40-45 | After any number of iterations, `result ++ copy` is a permutation of the input |
| Tags.PicksExtend | src/tags.ts:40-45 | Later iterations only append to `result` |
| Tags.Sample | src/tags.ts:37-47 | The sample has exactly `min(n, length)` elements |
| Tags.SampleSubMultiset | src/tags.ts:37-47 | Every sampled element comes from the input, never more often than it occurs there |
| Tags.SampleExtends | src/tags.ts:37-47 | With the same draws, a smaller `n` gives a prefix of a larger `n`'s sample |
| Tags.SampleMap | src/tags.ts:37-47 | The choice depends on positions only: sampling mapped elements gives the mapped sample |
| Tags.DistinctPositions | src/tags.ts:40-45 | The sample takes input elements at pairwise distinct positions |
| Tags.SampleWithoutReplacement | src/tags.ts:37-47 | The in-place loop over the copied array returns `Sample` of the input: `min(n, length)` elements drawn from it |
| Tags.SwapPopAt | src/tags.ts:43-44 | Moving the last cell into the picked one and popping leaves the pool `SwapPop` describes |
| Tags.SelectRandomTags | src/tags.ts:60-70 | `count` is `randomInt(minCount, maxCount)` and lies between them; the tags are the sample of the catalog; `tagNames[i]` is `tags[i].name` |
| Tags.SelectionHasNoRepeats | src/tags.ts:60-70 | From a catalog without duplicates, no tag is selected twice |
| Tags.SelectionCount | src/tags.ts:62-63 | For a non-negative `count`, it equals the number of tags exactly when the catalog holds at least `count` tags; a negative `count` selects no tags |
| Repo.InitGameRepo | src/pipeline.ts:211-272 | Commands are issued in order up to the first that throws; success exactly when every needed step succeeds; on success the trimmed URL and no error, otherwise no URL and the thrown message |
| Repo.Ran | src/pipeline.ts:216-271 | The steps run up to and including the first that throws |
| Repo.CreateAttempts | src/pipeline.ts:241-257 | `gh repo create` runs at most twice: first under the slug, then, only if that throws, under `slug-date` |
| Repo.CommitPhase | src/pipeline.ts:279-307 | `git add .` always; the status check when staging succeeds; a commit exactly when the trimmed status is non-empty, carrying the whole message as its single `-m` argument; the call never fails |
| Repo.CleanTreeNotCommitted | src/pipeline.ts:293-296 | Status output made only of white space counts as a clean tree, and no commit is made |
| Repo.PushRepo | src/pipeline.ts:312-319 | One `git push`, whose failure is swallowed |
| Repo.ShellWords | src/pipeline.ts:232-263 | With `shell: true` the arguments are joined by spaces; splitting that line at spaces gives the intended argument list back exactly when no argument holds a space |
| Repo.SpacedMessageSplits | src/pipeline.ts:298-302 | A commit message holding a space does not reach git as the single `-m` argument |
| Pipeline.RunPipeline | src/pipeline.ts:580-785 | The run returns the tag choice, the date, the output directory, and exactly the reference result and effect trace |
| Pipeline.ChooseTags | src/pipeline.ts:593-602 | Non-empty preselected names give ids by position; otherwise the random selection |
| Pipeline.RunPhases | src/pipeline.ts:617-785 | The phase blocks in order, from the first `meta.json` save to completion, produce `ResultOf` and `Trace` |
| Pipeline.RunPhase | src/pipeline.ts:642-776 | One phase block produces its reference block, goes on exactly when the agent succeeds, and then advances the URL, metadata and publishing flag |
| Pipeline.InvokePhase | src/pipeline.ts:748-763 | The agent run, with the loop state written before phase 6 and cleaned up after it whatever the outcome |
| Pipeline.FinishPhase | src/pipeline.ts:652-776 | A phase's success flags it, saves (not after phase 6) and publishes according to the flag |
| Pipeline.FinishFirst | src/pipeline.ts:652-674 | After phase 1, save; while publishing, create the repository; record and save its URL on success, and stop publishing on failure |
| Pipeline.CreateGameRepo | src/pipeline.ts:656-667 | The repository is named by the slug of the proposal's title; a URL exists exactly when creation succeeds |
| Pipeline.PublishPhase | src/pipeline.ts:690-776 | Commits take effect exactly when `commitPhase` commits; the push is attempted only after phase 6 |
| Pipeline.CommitMessagesSpaced | src/pipeline.ts:236 | Every phase's commit message holds a space after its `feat:` or `docs:` prefix, so none reaches git whole |
| Pipeline.AmpersandMessages | src/pipeline.ts:236 | The commit messages of phases 1, 3 and 5 hold `&`, which the shell reads as the end of a command |
| Pipeline.FailureMessage | src/pipeline.ts:648-650 | A failure message starts with `Phase k (` for the failing phase's number |
| Pipeline.Attempted | src/pipeline.ts:642-770 | The phases run up to and including the first failure: every earlier one succeeded |
| Pipeline.StopsAt | src/pipeline.ts:766-769 | A failing phase ends the run with its block last, failure and its error |
| Pipeline.RunsThrough | src/pipeline.ts:778-784 | A run in which every phase succeeds ends with the completion save and success |
| Pipeline.FlagsNext | src/pipeline.ts:652 | Flagging the next phase moves `meta.phases` from `n` to `n + 1` successes |
| Pipeline.EntriesNext | src/pipeline.ts:647 | Recording the next phase moves `result.phases` from `n` to `n + 1` entries |
| RunProperties.SucceededCount | src/pipeline.ts:642-770 | Of the phases that run, exactly the first `Succeeded` succeed; all six succeed exactly when the count is six |
| RunProperties.FailFast | src/pipeline.ts:642-770 | If phase k is the first to fail, the run fails with an error starting `Phase k (`, and `result.phases` holds exactly phases 1..k with their agents' reports; success, with no error, exactly when all phases succeed |
| RunProperties.InvokedInOrder | src/pipeline.ts:642-770 | Agents are invoked once each, in phase order, up to the first failure; no later phase is invoked |
| RunProperties.LoopStateAroundImplement | src/pipeline.ts:748-763 | The loop state is written just before phase 6's agent and cleaned up right after it, whatever its outcome, and never when an earlier phase fails; the file says iteration 1 |
| RunProperties.PublishingRules | src/pipeline.ts:656-776 | Creation is attempted at most once, first, exactly when `createRepo` is on and phase 1 succeeds; after a failed creation nothing is committed or pushed; each later successful phase is committed; the push comes last, once, exactly when all six succeed |
| RunProperties.PlanRules | src/pipeline.ts:656-776 | The publishing plan of any run length obeys the publishing rules |
| RunProperties.TracePublishes | src/pipeline.ts:656-776 | The publishing steps of a run are the plan for the phases that succeed |
| RunProperties.MetadataSaves | src/pipeline.ts:618-784 | The first save flags nothing; each save clears no flag and sets at most one; the last flags exactly the successful phases; only the completion save, made when all six succeed, is marked successful and complete |
| RunProperties.TraceSaves | src/pipeline.ts:618-784 | The saves of a run are the initial save, each block's saves at its phase count, then the completion save |
| RunProperties.LevelsClimb | src/pipeline.ts:652-741 | Saved phase counts start at 0 and climb by at most one per save |
| RunProperties.FlagsStep | src/pipeline.ts:652 | Going from `l` to `l` or `l + 1` successes clears no flag and sets at most one |
| RunProperties.FlagsMeaning | src/pipeline.ts:622-629 | Every phase has a flag, set exactly when that many phases have succeeded |

## Findings

| source | as written | input that shows it | evidently intended | confidence | as-written member | corrected member |
|---|---|---|---|---|---|---|
| src/pipeline.ts:234-238 | the commit runs through `execFileAsync` with the arguments `commit`, `-m` and the message and the option `shell: true`, which joins them with spaces and no quoting, so `/bin/sh` splits the message into words and reads `&` as the end of a command | the first commit's message `feat: Phase 1 - game proposal & pipeline assets`: git is given `-m feat:` and pathspecs, in the background, and the line's status is that of a command `pipeline assets` | git receives the whole message as the single `-m` argument | not executed | Repo.SpacedMessageSplits | Repo.CommitPhase |

## Left out

- File system work is not modelled, apart from the effects in the trace. That covers creating the output and `specs` directories, `copyPipelineAssets`, `generateGameClaudeMd`, the `.gitignore` written by `initGameRepo` and the JSON formatting of `meta.json`. The traced effects are metadata saves, loop-state writes and the clean-up's outcome.
- The prompt builders (src/pipeline.ts:327-506) and all console logging are not modelled. They are string literals and messages with no behaviour to state. Phase 6's prompt is a `World` input.
- src/invoke-claude.ts is not part of this model. Each agent run is its reported `{success, error}`, given per phase.
- src/server.ts is not part of this model. It is HTTP plumbing around `runPipeline`.
- The ralph-wiggum stop hook is not modelled. What it leaves of the state file after phase 6 is a `World` input.
- `Math.random()` is a fraction `num / den` in `[0, 1)` passed in as a `Draw`, not a floating-point generator.
- Tags.RandomInt: the bounds, the tag counts and `count` are integers, as a "random integer" implies. The source's values are JS numbers taken from the request (src/server.ts:57-61, src/pipeline.ts:581, 601). A fractional bound such as `min = 1.5`, `max = 2` gives 1.5 or 2.5, outside `[min, max]`, and the `i < n` loop (src/tags.ts:40) then runs `ceil(n)` times. Non-integer request values are not modelled.
- `new Date().toISOString()` readings are `World` strings, one per call site.
- `loadTags` is not modelled. The parsed catalog is a parameter.
- `Text.ToLower`: only ASCII letters are lower-cased. Unicode case mappings outside ASCII are not modelled.
- Repo.InitGameRepo, Repo.CommitPhase: commands are recorded as their intended argument lists, which the corrected model in "## Findings" runs. How `/bin/sh` would split the unquoted line, and the outcome that would follow from it, are not modelled. Each command's outcome is a free parameter.
- `Pipeline.RunPipeline`: the publishing steps in the trace record which of `initGameRepo`, `commitPhase` and `pushRepo` is called. The commands those calls issue and what took effect are stated by `Repo.InitGameRepo`, `Repo.CommitPhase`, `Repo.PushRepo` and `Pipeline.PublishPhase`, not repeated in the trace.
- `Tags.SampleWithoutReplacement`: the caller's array is a sequence, because the source only reads it and copies it first. So it is unchanged by construction, and aliasing of the caller's array is not modelled.
- Exceptions thrown outside the modelled steps are not modelled, for example a failing `mkdirSync` or a `meta.json` write error that would reject `runPipeline`'s promise.
- LoopState.CleanupState: reading the state file (src/pipeline.ts:554) happens outside the `try`, so a failed read of an existing file would reject `runPipeline` after phase 6 and skip the final commit, the push and the completion save. The model assumes that read succeeds; only a failed unlink is an outcome.
