/**
 * `runPipeline` (src/pipeline.ts): six agent phases run strictly in order, each recorded
 * in the run's result and, when it succeeds, flagged in the metadata written to
 * `meta.json`; after phase 1 a GitHub repository may be created, and later phases are
 * committed (and the last one pushed) only while publishing is on.
 *
 * Nothing is executed: agent runs, clock readings, random draws, the proposal file and
 * the outcomes of git and gh commands come from a `World`, and everything the run does to
 * the outside is recorded, in order, as a trace of `Effect`s.
 */
module Pipeline {
  import opened Wrappers
  import opened Text
  import Naming
  import LoopState
  import Tags
  import Repo

  // ---------------------------------------------------------------------------
  // Phases
  // ---------------------------------------------------------------------------

  /** The keys of `meta.phases` and `result.phases`, one per agent phase. */
  datatype Phase = CreativeDirector | DesignLeadGuides | CdReview | DesignLeadDispatch | DlReview | Implement

  /** The phases in the order they run. */
  const Order: seq<Phase> := [CreativeDirector, DesignLeadGuides, CdReview, DesignLeadDispatch, DlReview, Implement]

  /** The phase's number in log and error messages. */
  function Number(p: Phase): (n: nat)
    ensures 1 <= n <= 6
  {
    match p
    case CreativeDirector => 1
    case DesignLeadGuides => 2
    case CdReview => 3
    case DesignLeadDispatch => 4
    case DlReview => 5
    case Implement => 6
  }

  /** `Number` is the position in `Order`, counted from 1. */
  lemma OrderNumbers()
    ensures forall j :: 0 <= j < 6 ==> Number(Order[j]) == j + 1
  {
  }

  /** Phase 1 and phase 6 are the ends of `Order`. */
  lemma OrderEnds(i: nat)
    requires i < 6
    ensures Order[i] == CreativeDirector <==> i == 0
    ensures Order[i] == Implement <==> i == 5
  {
  }

  lemma NumberedOrder()
    ensures forall p :: Order[Number(p) - 1] == p
  {
  }

  /** The phase's name in its failure message. */
  function Label(p: Phase): string {
    match p
    case CreativeDirector => "Creative Director"
    case DesignLeadGuides => "Design Lead 가이드 작성"
    case CdReview => "CD 가이드 리뷰"
    case DesignLeadDispatch => "Design Lead 디스패치"
    case DlReview => "Design Lead 사양 리뷰"
    case Implement => "Implementer"
  }

  /** The `maxTurns` the phase's agent is invoked with. */
  function MaxTurns(p: Phase): nat {
    match p
    case CreativeDirector => 15
    case DesignLeadGuides => 20
    case CdReview => 15
    case DesignLeadDispatch => 30
    case DlReview => 20
    case Implement => 50
  }

  /** The message of the commit made after the phase (phase 1's is the repository's first commit). */
  function CommitMessage(p: Phase): string {
    match p
    case CreativeDirector => Repo.InitialCommitMessage
    case DesignLeadGuides => "docs: Phase 2 - design guides"
    case CdReview => "docs: Phase 3 - guide review & revisions"
    case DesignLeadDispatch => "docs: Phase 4 - detailed specs"
    case DlReview => "docs: Phase 5 - spec review & revisions"
    case Implement => "feat: Phase 6 - game implementation"
  }

  /**
   * Every phase's commit message holds a space (after its `feat:` or `docs:` prefix), so by
   * `Repo.SpacedMessageSplits` none of them reaches git whole through the unquoted shell line.
   */
  lemma CommitMessagesSpaced(p: Phase)
    ensures |CommitMessage(p)| > 5 && CommitMessage(p)[5] == ' '
  {
    if p == CreativeDirector || p == DesignLeadGuides || p == CdReview {
      EarlyMessagesSpaced(p);
    } else {
      LateMessagesSpaced(p);
    }
  }

  lemma EarlyMessagesSpaced(p: Phase)
    requires p == CreativeDirector || p == DesignLeadGuides || p == CdReview
    ensures |CommitMessage(p)| > 5 && CommitMessage(p)[5] == ' '
  {
  }

  lemma LateMessagesSpaced(p: Phase)
    requires p == DesignLeadDispatch || p == DlReview || p == Implement
    ensures |CommitMessage(p)| > 5 && CommitMessage(p)[5] == ' '
  {
  }

  /** The messages of phases 1, 3 and 5 hold `&`, which ends a shell command. */
  lemma AmpersandMessages(p: Phase)
    requires p == CreativeDirector || p == CdReview || p == DlReview
    ensures '&' in CommitMessage(p)
  {
    match p
    case CreativeDirector => assert CommitMessage(p)[30] == '&';
    case CdReview => assert CommitMessage(p)[29] == '&';
    case DlReview => assert CommitMessage(p)[28] == '&';
  }

  /** `PHASE6_TIMEOUT`: fifteen minutes per allowed iteration, in milliseconds. */
  const Phase6Timeout: nat := LoopState.MaxIterations * 15 * 60 * 1000

  /** One value per phase. */
  datatype PerPhase<T> = PerPhase(
    creativeDirector: T, designLeadGuides: T, cdReview: T, designLeadDispatch: T, dlReview: T, implement: T)
  {
    function At(p: Phase): T {
      match p
      case CreativeDirector => creativeDirector
      case DesignLeadGuides => designLeadGuides
      case CdReview => cdReview
      case DesignLeadDispatch => designLeadDispatch
      case DlReview => dlReview
      case Implement => implement
    }
  }

  /** What an agent run reports, and what `result.phases` records for it. */
  datatype PhaseResult = PhaseResult(success: bool, error: Option<string>)

  /** A missing error renders as `undefined` in a template string. */
  function ErrorText(error: Option<string>): string {
    match error
    case Some(e) => e
    case None => "undefined"
  }

  /** `result.error` when phase `p` fails. */
  function FailureMessage(p: Phase, error: Option<string>): (msg: string)
    ensures var head := "Phase " + Decimal(Number(p)) + " (";
      |head| <= |msg| && msg[..|head|] == head
  {
    "Phase " + Decimal(Number(p)) + " (" + Label(p) + ") 실패: " + ErrorText(error)
  }

  // ---------------------------------------------------------------------------
  // Records, configuration and the outside world
  // ---------------------------------------------------------------------------

  /** The content of `meta.json`. */
  datatype Meta = Meta(
    date: string, tags: seq<string>, startedAt: string, phases: map<Phase, bool>,
    repoUrl: Option<string>, completedAt: Option<string>, success: Option<bool>)

  datatype PipelineResult = PipelineResult(
    success: bool, date: string, tags: Tags.TagSelection, outputDir: string,
    phases: map<Phase, PhaseResult>, repoUrl: Option<string>, error: Option<string>)

  /** `PipelineConfig`; a missing field takes its default. */
  datatype Config = Config(
    minTags: Option<int>, maxTags: Option<int>, preSelectedTags: Option<seq<string>>, createRepo: Option<bool>)

  function MinTags(config: Config): int { config.minTags.GetOr(2) }
  function MaxTags(config: Config): int { config.maxTags.GetOr(5) }
  function ShouldCreate(config: Config): bool { config.createRepo.GetOr(true) }

  predicate Preselected(config: Config) {
    config.preSelectedTags.Some? && |config.preSelectedTags.value| > 0
  }

  /** The selection built from caller-chosen names: ids are the positions. */
  function PreselectedTags(names: seq<string>): Tags.TagSelection {
    Tags.TagSelection(|names|, seq(|names|, i requires 0 <= i < |names| => Tags.SteamTag(i, names[i])), names)
  }

  /**
   * Everything the run reads from outside: five clock readings (start, output directory,
   * metadata, loop state, completion), the tag catalog and the random draws, each agent's
   * report, the proposal file after phase 1, the outcomes of git and gh, phase 6's prompt,
   * the loop-state file after phase 6's agent ends and whether deleting it succeeds.
   */
  datatype World = World(
    startClock: string, dirClock: string, metaClock: string, loopClock: string, endClock: string,
    catalog: seq<Tags.SteamTag>, countDraw: Tags.Draw, draws: seq<Tags.Draw>,
    agent: PerPhase<PhaseResult>,
    proposal: Option<string>,
    repo: Repo.InitOutcomes, commits: PerPhase<Repo.CommitOutcomes>, push: Repo.Outcome,
    implementPrompt: string, loopFileAfter: Option<string>, unlinkOk: bool)

  /** The repository name derived from the proposal's title. */
  function RepoName(w: World): string {
    Naming.SlugifyForRepo(Naming.ExtractGameTitle(w.proposal))
  }

  /** Whether `initGameRepo` succeeds under these outcomes. */
  predicate RepoCreated(o: Repo.InitOutcomes) {
    o.init.Exited? && o.add.Exited? && o.commit.Exited? && (o.create.Exited? || o.retry.Exited?) && o.view.Exited?
  }

  /** The ralph-loop state file written before phase 6. */
  function LoopContent(w: World): string {
    LoopState.StateContent(w.implementPrompt, LoopState.MaxIterations, LoopState.CompletionPromise, w.loopClock)
  }


  // ---------------------------------------------------------------------------
  // Effects
  // ---------------------------------------------------------------------------

  /** A publishing step: `initGameRepo`, `commitPhase` after a phase, or `pushRepo`. */
  datatype PublishStep = CreateRepo(name: string) | CommitOf(phase: Phase) | PushRepo

  /** What the run does to the outside, in order. */
  datatype Effect =
    | SaveMeta(meta: Meta)
    | Invoke(phase: Phase, maxTurns: nat, timeout: Option<nat>)
    | WriteLoopState(content: string)
    | CleanupLoopState(cleanup: LoopState.Cleanup)
    | Publish(step: PublishStep)

  /** The agent invocation of phase `p`. */
  function InvokeOf(p: Phase): Effect {
    Invoke(p, MaxTurns(p), if p == Implement then Some(Phase6Timeout) else None)
  }

  /** The kinds of effect the properties of a run talk about. */
  datatype Kind =
    | Invocations  // agent invocations
    | Saves        // `meta.json` writes
    | Publishing   // repository creation, commits and the push
    | LoopEvents   // phase 6's invocation and the loop-state writes and clean-ups around it

  predicate Is(kind: Kind, e: Effect) {
    match kind
    case Invocations => e.Invoke?
    case Saves => e.SaveMeta?
    case Publishing => e.Publish?
    case LoopEvents => e.WriteLoopState? || e.CleanupLoopState? || (e.Invoke? && e.phase == Implement)
  }

  /** The effects of kind `kind`, in order. */
  function Keep(effects: seq<Effect>, kind: Kind): (kept: seq<Effect>)
    ensures |kept| <= |effects|
    ensures forall j :: 0 <= j < |kept| ==> Is(kind, kept[j])
  {
    if effects == [] then []
    else Keep(effects[..|effects| - 1], kind) + (if Is(kind, effects[|effects| - 1]) then [effects[|effects| - 1]] else [])
  }

  lemma {:induction false} KeepAppend(a: seq<Effect>, b: seq<Effect>, kind: Kind)
    ensures Keep(a + b, kind) == Keep(a, kind) + Keep(b, kind)
    decreases |b|
  {
    if b == [] {
      assert a + b == a;
    } else {
      var init := b[..|b| - 1];
      assert (a + b)[..|a + b| - 1] == a + init;
      KeepAppend(a, init, kind);
    }
  }

  lemma {:induction false} KeepNone(effects: seq<Effect>, kind: Kind)
    requires forall j :: 0 <= j < |effects| ==> !Is(kind, effects[j])
    ensures Keep(effects, kind) == []
    decreases |effects|
  {
    if effects != [] {
      KeepNone(effects[..|effects| - 1], kind);
    }
  }

  lemma KeepOne(e: Effect, kind: Kind)
    ensures Keep([e], kind) == if Is(kind, e) then [e] else []
  {
    assert [e][..0] == [];
  }

  // ---------------------------------------------------------------------------
  // The reference run
  // ---------------------------------------------------------------------------

  /** How many phases run: up to and including the first that fails. */
  function Attempted(agent: PerPhase<PhaseResult>): (k: nat)
    ensures 1 <= k <= 6
    ensures forall j :: 0 <= j < k - 1 ==> agent.At(Order[j]).success
    ensures k < 6 ==> !agent.At(Order[k - 1]).success
  {
    AttemptedFrom(agent, 0)
  }

  function AttemptedFrom(agent: PerPhase<PhaseResult>, i: nat): (k: nat)
    requires i < 6
    ensures i + 1 <= k <= 6
    ensures forall j :: i <= j < k - 1 ==> agent.At(Order[j]).success
    ensures k < 6 ==> !agent.At(Order[k - 1]).success
    decreases 6 - i
  {
    if i == 5 || !agent.At(Order[i]).success then i + 1 else AttemptedFrom(agent, i + 1)
  }

  /** Whether the first `i` phases in run order succeed. */
  predicate SucceededBefore(agent: PerPhase<PhaseResult>, i: nat)
    requires i <= 6
  {
    i == 0 || (SucceededBefore(agent, i - 1) && agent.At(Order[i - 1]).success)
  }

  lemma {:induction false} SucceededBeforeAll(agent: PerPhase<PhaseResult>, i: nat)
    requires i <= 6
    ensures SucceededBefore(agent, i) <==> forall j :: 0 <= j < i ==> agent.At(Order[j]).success
  {
    if i > 0 {
      SucceededBeforeAll(agent, i - 1);
    }
  }

  predicate AllSucceed(agent: PerPhase<PhaseResult>) {
    forall j :: 0 <= j < 6 ==> agent.At(Order[j]).success
  }

  /** How many phases succeed before the run stops. */
  function Succeeded(agent: PerPhase<PhaseResult>): nat {
    if AllSucceed(agent) then 6 else Attempted(agent) - 1
  }

  /** `meta.phases` once the first `n` phases have succeeded. */
  function Flags(n: nat): map<Phase, bool> {
    map p | p in Order :: Number(p) <= n
  }

  /** `result.phases` once the first `n` phases have run. */
  function Entries(agent: PerPhase<PhaseResult>, n: nat): map<Phase, PhaseResult> {
    map p | p in Order && Number(p) <= n :: agent.At(p)
  }

  /** The repository URL recorded once `n` phases have succeeded. */
  function UrlAfter(config: Config, w: World, n: nat): Option<string> {
    if n >= 1 && ShouldCreate(config) && RepoCreated(w.repo) then Some(Trim(w.repo.view.stdout)) else None
  }

  /** `shouldCreateRepo` once `n` phases have succeeded. */
  predicate PublishingAfter(config: Config, w: World, n: nat) {
    ShouldCreate(config) && (n == 0 || RepoCreated(w.repo))
  }

  /** The metadata once `n` phases have succeeded (and the repository step, if any, is done). */
  function MetaAfter(config: Config, w: World, date: string, names: seq<string>, n: nat): Meta {
    Meta(date, names, w.metaClock, Flags(n), UrlAfter(config, w, n), None, None)
  }

  /**
   * What the block of phase 1 does once its agent has succeeded: save the metadata, then,
   * while publishing is on, create the repository and save again with its URL.
   */
  function AfterFirst(config: Config, w: World, date: string, names: seq<string>): seq<Effect> {
    var saved := MetaAfter(config, w, date, names, 1);
    if !ShouldCreate(config) then [SaveMeta(saved.(repoUrl := None))]
    else if !RepoCreated(w.repo) then [SaveMeta(saved.(repoUrl := None)), Publish(CreateRepo(RepoName(w)))]
    else [SaveMeta(saved.(repoUrl := None)), Publish(CreateRepo(RepoName(w))), SaveMeta(saved)]
  }

  /** Phases 2 to 5 after success: save the metadata, then commit while publishing is on. */
  function AfterMiddle(config: Config, w: World, date: string, names: seq<string>, i: nat): seq<Effect>
    requires 1 <= i < 5
  {
    var saved := MetaAfter(config, w, date, names, i + 1);
    if PublishingAfter(config, w, i) then [SaveMeta(saved), Publish(CommitOf(Order[i]))] else [SaveMeta(saved)]
  }

  /** Phase 6 after success: commit and push while publishing is on (no metadata save). */
  function AfterLast(config: Config, w: World): seq<Effect> {
    if PublishingAfter(config, w, 5) then [Publish(CommitOf(Implement)), Publish(PushRepo)] else []
  }

  /** What the block of phase `Order[i]` does once its agent has succeeded. */
  function AfterSuccess(config: Config, w: World, date: string, names: seq<string>, i: nat): seq<Effect>
    requires i < 6
  {
    if i == 0 then AfterFirst(config, w, date, names)
    else if i < 5 then AfterMiddle(config, w, date, names, i)
    else AfterLast(config, w)
  }

  /**
   * The agent invocation of phase `p`; before phase 6 the ralph-loop state is written and
   * after it whatever the stop hook left of it is cleaned up.
   */
  function Invocation(w: World, p: Phase): seq<Effect> {
    if p == Implement
    then [WriteLoopState(LoopContent(w)), InvokeOf(p), CleanupLoopState(LoopState.CleanupState(w.loopFileAfter, w.unlinkOk))]
    else [InvokeOf(p)]
  }

  /** What the block of phase `Order[i]` does, the earlier phases having succeeded. */
  function Block(config: Config, w: World, date: string, names: seq<string>, i: nat): seq<Effect>
    requires i < 6
  {
    Invocation(w, Order[i])
    + (if w.agent.At(Order[i]).success then AfterSuccess(config, w, date, names, i) else [])
  }

  function Blocks(config: Config, w: World, date: string, names: seq<string>, n: nat): seq<Effect>
    requires n <= 6
  {
    if n == 0 then [] else Blocks(config, w, date, names, n - 1) + Block(config, w, date, names, n - 1)
  }

  /** The final metadata of a run in which every phase succeeds. */
  function Completed(config: Config, w: World, date: string, names: seq<string>): Meta {
    MetaAfter(config, w, date, names, 6).(completedAt := Some(w.endClock), success := Some(true))
  }

  /** Everything a run does, given the date and the tag names it chose. */
  function Trace(config: Config, w: World, date: string, names: seq<string>): seq<Effect> {
    [SaveMeta(MetaAfter(config, w, date, names, 0))]
    + Blocks(config, w, date, names, Attempted(w.agent))
    + (if AllSucceed(w.agent) then [SaveMeta(Completed(config, w, date, names))] else [])
  }

  /** The result a run returns. */
  function ResultOf(config: Config, w: World, date: string, tags: Tags.TagSelection, outputDir: string): PipelineResult {
    var k := Attempted(w.agent);
    PipelineResult(
      AllSucceed(w.agent), date, tags, outputDir, Entries(w.agent, k), UrlAfter(config, w, Succeeded(w.agent)),
      if AllSucceed(w.agent) then None else Some(FailureMessage(Order[k - 1], w.agent.At(Order[k - 1]).error)))
  }

  // ---------------------------------------------------------------------------
  // runPipeline
  // ---------------------------------------------------------------------------

  /**
   * `runPipeline(config)`. The six phase blocks of the source differ only in the tables
   * above, so they run here as one loop over `Order`; phase 1's repository step and
   * phase 6's loop-state handling are the branches where the blocks differ.
   */
  method RunPipeline(config: Config, w: World, outputsDir: string) returns (result: PipelineResult, effects: seq<Effect>)
    requires Tags.ValidDraw(w.countDraw) && Tags.ValidDraws(w.draws) && |w.draws| >= |w.catalog|
    ensures Preselected(config) ==> result.tags == PreselectedTags(config.preSelectedTags.value)
    ensures !Preselected(config) ==>
      && result.tags.count == Tags.RandomInt(MinTags(config), MaxTags(config), w.countDraw)
      && result.tags.tags == Tags.Sample(w.catalog, result.tags.count, w.draws)
      && |result.tags.tagNames| == |result.tags.tags|
      && forall i :: 0 <= i < |result.tags.tags| ==> result.tags.tagNames[i] == result.tags.tags[i].name
    ensures result.date == Naming.DatePart(w.startClock)
    ensures result.outputDir == Naming.OutputDir(outputsDir, w.dirClock, result.tags.tagNames)
    ensures result == ResultOf(config, w, result.date, result.tags, result.outputDir)
    ensures effects == Trace(config, w, result.date, result.tags.tagNames)
  {
    var date := Naming.DatePart(w.startClock);
    var tags := ChooseTags(config, w);
    var outputDir := Naming.OutputDir(outputsDir, w.dirClock, tags.tagNames);
    result, effects := RunPhases(config, w, date, tags, outputDir);
  }

  /**
   * The phase blocks of `runPipeline` in order, from the first metadata save to the last;
   * a failed phase ends the run with its error.
   */
  method RunPhases(config: Config, w: World, date: string, tags: Tags.TagSelection, outputDir: string)
    returns (result: PipelineResult, effects: seq<Effect>)
    ensures result == ResultOf(config, w, date, tags, outputDir)
    ensures effects == Trace(config, w, date, tags.tagNames)
  {
    var shouldCreateRepo := ShouldCreate(config);
    result := PipelineResult(false, date, tags, outputDir, map[], None, None);
    var meta := MetaAfter(config, w, date, tags.tagNames, 0);
    effects := [SaveMeta(meta)];
    assert Entries(w.agent, 0) == map[];

    var i := 0;
    while i < 6
      invariant 0 <= i <= 6
      invariant SucceededBefore(w.agent, i)
      invariant result.phases == Entries(w.agent, i) && result.repoUrl == UrlAfter(config, w, i)
      invariant result == PipelineResult(false, date, tags, outputDir, result.phases, result.repoUrl, None)
      invariant meta == MetaAfter(config, w, date, tags.tagNames, i)
      invariant shouldCreateRepo == PublishingAfter(config, w, i)
      invariant effects == [SaveMeta(MetaAfter(config, w, date, tags.tagNames, 0))] + Blocks(config, w, date, tags.tagNames, i)
    {
      var block, ok, url;
      block, ok, url, meta, shouldCreateRepo := RunPhase(config, w, i, result.repoUrl, meta, shouldCreateRepo);
      BlocksNext(config, w, date, tags.tagNames, i);
      EntriesNext(w.agent, i);
      effects := effects + block;
      result := result.(phases := result.phases[Order[i] := w.agent.At(Order[i])]);
      if !ok {
        StopsAt(config, w, date, tags, outputDir, i);
        result := result.(error := Some(FailureMessage(Order[i], w.agent.At(Order[i]).error)));
        return;
      }
      result := result.(repoUrl := url);
      i := i + 1;
    }

    RunsThrough(config, w, date, tags, outputDir);
    meta := meta.(completedAt := Some(w.endClock), success := Some(true));
    effects := effects + [SaveMeta(meta)];
    result := result.(success := true);
  }

  /** The tag selection: the configured names, or a random draw from the catalog. */
  method ChooseTags(config: Config, w: World) returns (tags: Tags.TagSelection)
    requires Tags.ValidDraw(w.countDraw) && Tags.ValidDraws(w.draws) && |w.draws| >= |w.catalog|
    ensures Preselected(config) ==> tags == PreselectedTags(config.preSelectedTags.value)
    ensures !Preselected(config) ==>
      && tags.count == Tags.RandomInt(MinTags(config), MaxTags(config), w.countDraw)
      && tags.tags == Tags.Sample(w.catalog, tags.count, w.draws)
      && |tags.tagNames| == |tags.tags|
      && forall i :: 0 <= i < |tags.tags| ==> tags.tagNames[i] == tags.tags[i].name
  {
    if Preselected(config) {
      tags := PreselectedTags(config.preSelectedTags.value);
    } else {
      tags := Tags.SelectRandomTags(w.catalog, MinTags(config), MaxTags(config), w.countDraw, w.draws);
    }
  }

  /**
   * The block of phase `Order[i]`, the earlier phases having succeeded: run the agent,
   * record its result, and on success finish the phase; on failure record the error.
   * `ok` says whether the run goes on.
   */
  method RunPhase(config: Config, w: World, i: nat, url: Option<string>, meta: Meta, shouldCreateRepo: bool)
    returns (block: seq<Effect>, ok: bool, url': Option<string>, meta': Meta, shouldCreateRepo': bool)
    requires i < 6
    requires url == UrlAfter(config, w, i)
    requires meta == MetaAfter(config, w, meta.date, meta.tags, i)
    requires shouldCreateRepo == PublishingAfter(config, w, i)
    ensures block == Block(config, w, meta.date, meta.tags, i)
    ensures ok == w.agent.At(Order[i]).success
    ensures ok ==> url' == UrlAfter(config, w, i + 1)
    ensures ok ==> meta' == MetaAfter(config, w, meta.date, meta.tags, i + 1)
    ensures ok ==> shouldCreateRepo' == PublishingAfter(config, w, i + 1)
  {
    var p := Order[i];
    var outcome;
    block, outcome := InvokePhase(w, p);
    url', meta', shouldCreateRepo' := url, meta, shouldCreateRepo;
    ok := outcome.success;
    if ok {
      var after;
      after, url', meta', shouldCreateRepo' := FinishPhase(config, w, i, url, meta, shouldCreateRepo);
      block := block + after;
    }
  }

  /**
   * The agent run of phase `p`: the ralph-loop state is written before phase 6 and cleaned
   * up after it, whether or not the agent succeeded. `Invocation` is its reference
   * definition, which the proofs about whole runs use.
   */
  method InvokePhase(w: World, p: Phase) returns (effects: seq<Effect>, outcome: PhaseResult)
    ensures effects == Invocation(w, p)
    ensures outcome == w.agent.At(p)
  {
    outcome := w.agent.At(p);
    if p == Implement {
      var content := LoopContent(w);
      var cleanup := LoopState.CleanupState(w.loopFileAfter, w.unlinkOk);
      effects := [WriteLoopState(content), InvokeOf(p), CleanupLoopState(cleanup)];
    } else {
      effects := [InvokeOf(p)];
    }
  }

  /**
   * The rest of the block of phase `Order[i]` once its agent has succeeded: flag the phase,
   * save the metadata (not after phase 6), then either create the repository (after
   * phase 1) or commit, and push after phase 6, while publishing is on.
   */
  method FinishPhase(config: Config, w: World, i: nat, url: Option<string>, meta: Meta, shouldCreateRepo: bool)
    returns (after: seq<Effect>, url': Option<string>, meta': Meta, shouldCreateRepo': bool)
    requires i < 6
    requires url == UrlAfter(config, w, i)
    requires meta == MetaAfter(config, w, meta.date, meta.tags, i)
    requires shouldCreateRepo == PublishingAfter(config, w, i)
    ensures after == AfterSuccess(config, w, meta.date, meta.tags, i)
    ensures url' == UrlAfter(config, w, i + 1)
    ensures meta' == MetaAfter(config, w, meta.date, meta.tags, i + 1)
    ensures shouldCreateRepo' == PublishingAfter(config, w, i + 1)
  {
    var p := Order[i];
    OrderEnds(i);
    url', shouldCreateRepo' := url, shouldCreateRepo;
    meta' := meta.(phases := meta.phases[p := true]);
    FlagsNext(i);
    assert meta' == MetaAfter(config, w, meta.date, meta.tags, i + 1).(repoUrl := meta.repoUrl);
    if p == CreativeDirector {
      after, url', shouldCreateRepo' := FinishFirst(config, w, meta', shouldCreateRepo);
      meta' := meta'.(repoUrl := url');
    } else if p != Implement {
      if shouldCreateRepo {
        var committed, pushed := PublishPhase(w, p);
        after := [SaveMeta(meta'), Publish(CommitOf(p))];
      } else {
        after := [SaveMeta(meta')];
      }
    } else {
      if shouldCreateRepo {
        var committed, pushed := PublishPhase(w, p);
        after := [Publish(CommitOf(p)), Publish(PushRepo)];
      } else {
        after := [];
      }
    }
  }

  /**
   * Phase 1's publishing step: save the flagged metadata, then, while publishing is on,
   * create the repository; its URL is recorded and saved, and a failure turns publishing off.
   */
  method FinishFirst(config: Config, w: World, meta: Meta, shouldCreateRepo: bool)
    returns (after: seq<Effect>, url: Option<string>, shouldCreateRepo': bool)
    requires meta.repoUrl.None? && shouldCreateRepo == ShouldCreate(config)
    ensures !ShouldCreate(config) ==> after == [SaveMeta(meta)]
    ensures ShouldCreate(config) && !RepoCreated(w.repo) ==>
      after == [SaveMeta(meta), Publish(CreateRepo(RepoName(w)))]
    ensures ShouldCreate(config) && RepoCreated(w.repo) ==>
      after == [SaveMeta(meta), Publish(CreateRepo(RepoName(w))), SaveMeta(meta.(repoUrl := url))]
    ensures url == UrlAfter(config, w, 1)
    ensures shouldCreateRepo' == PublishingAfter(config, w, 1)
  {
    shouldCreateRepo' := shouldCreateRepo;
    if !shouldCreateRepo {
      after, url := [SaveMeta(meta)], None;
      return;
    }
    var repoName;
    repoName, url := CreateGameRepo(w, meta.date);
    if url.Some? {
      after := [SaveMeta(meta), Publish(CreateRepo(repoName)), SaveMeta(meta.(repoUrl := url))];
    } else {
      after := [SaveMeta(meta), Publish(CreateRepo(repoName))];
      shouldCreateRepo' := false;
    }
  }

  /**
   * The repository step after phase 1: `initGameRepo` under the name derived from the
   * proposal's title; `url` is the repository's URL when creation succeeds.
   */
  method CreateGameRepo(w: World, date: string) returns (repoName: string, url: Option<string>)
    ensures repoName == RepoName(w) && Naming.IsRepoSlug(repoName)
    ensures url.Some? <==> RepoCreated(w.repo)
    ensures url.Some? ==> url.value == Trim(w.repo.view.stdout)
  {
    repoName := Naming.SlugifyForRepo(Naming.ExtractGameTitle(w.proposal));
    var repo, issued := Repo.InitGameRepo(repoName, date, w.repo);
    url := if repo.success then repo.repoUrl else None;
  }

  /**
   * The publishing after phases 2 to 6: `commitPhase`, and after phase 6 `pushRepo`.
   * Their failures are swallowed; `committed` and `pushed` say what took effect.
   */
  method PublishPhase(w: World, p: Phase) returns (committed: bool, pushed: bool)
    requires p != CreativeDirector
    ensures committed <==> Repo.CommitMade(w.commits.At(p))
    ensures pushed <==> p == Implement && w.push.Exited?
  {
    var issued;
    issued, committed := Repo.CommitPhase(CommitMessage(p), w.commits.At(p));
    pushed := false;
    if p == Implement {
      var pushIssued;
      pushIssued, pushed := Repo.PushRepo(w.push);
    }
  }

  lemma FlagsNext(i: nat)
    requires i < 6
    ensures Flags(i)[Order[i] := true] == Flags(i + 1)
  {
    OrderNumbers();
    var next := Flags(i)[Order[i] := true];
    assert next.Keys == Flags(i + 1).Keys;
  }

  lemma EntriesNext(agent: PerPhase<PhaseResult>, i: nat)
    requires i < 6
    ensures Entries(agent, i)[Order[i] := agent.At(Order[i])] == Entries(agent, i + 1)
  {
    OrderNumbers();
    var next := Entries(agent, i)[Order[i] := agent.At(Order[i])];
    assert next.Keys == Entries(agent, i + 1).Keys;
  }

  lemma BlocksNext(config: Config, w: World, date: string, names: seq<string>, i: nat)
    requires i < 6
    ensures [SaveMeta(MetaAfter(config, w, date, names, 0))] + Blocks(config, w, date, names, i + 1)
      == [SaveMeta(MetaAfter(config, w, date, names, 0))] + Blocks(config, w, date, names, i) + Block(config, w, date, names, i)
  {
  }

  /** The run stops at the first phase that fails: its trace ends with that phase's block. */
  lemma StopsAt(config: Config, w: World, date: string, tags: Tags.TagSelection, outputDir: string, i: nat)
    requires i < 6 && !w.agent.At(Order[i]).success
    requires SucceededBefore(w.agent, i)
    ensures Trace(config, w, date, tags.tagNames)
      == [SaveMeta(MetaAfter(config, w, date, tags.tagNames, 0))] + (Blocks(config, w, date, tags.tagNames, i) + Block(config, w, date, tags.tagNames, i))
    ensures ResultOf(config, w, date, tags, outputDir)
      == PipelineResult(false, date, tags, outputDir, Entries(w.agent, i + 1), UrlAfter(config, w, i),
                        Some(FailureMessage(Order[i], w.agent.At(Order[i]).error)))
  {
    SucceededBeforeAll(w.agent, i);
    assert Attempted(w.agent) == i + 1 && !AllSucceed(w.agent);
  }

  /** A run in which every phase succeeds ends with the completed metadata. */
  lemma RunsThrough(config: Config, w: World, date: string, tags: Tags.TagSelection, outputDir: string)
    requires SucceededBefore(w.agent, 6)
    ensures Trace(config, w, date, tags.tagNames)
      == [SaveMeta(MetaAfter(config, w, date, tags.tagNames, 0))] + Blocks(config, w, date, tags.tagNames, 6)
         + [SaveMeta(Completed(config, w, date, tags.tagNames))]
    ensures ResultOf(config, w, date, tags, outputDir)
      == PipelineResult(true, date, tags, outputDir, Entries(w.agent, 6), UrlAfter(config, w, 6), None)
  {
    SucceededBeforeAll(w.agent, 6);
    assert Attempted(w.agent) == 6 && AllSucceed(w.agent);
  }
}
