/**
 * What a whole run of `runPipeline` (src/pipeline.ts) promises, stated on the reference
 * result and trace (`Pipeline.ResultOf`, `Pipeline.Trace`) that `Pipeline.RunPipeline` is
 * proved to return: fail-fast phase order, the metadata saves, the publishing rules and
 * the ralph-loop state around phase 6.
 */
module RunProperties {
  import opened Wrappers
  import opened Text
  import opened Pipeline
  import LoopState

  // ---------------------------------------------------------------------------
  // Counting phases
  // ---------------------------------------------------------------------------

  /**
   * Of the phases that run, exactly the first `Succeeded` succeed: the last one that runs
   * fails unless all six succeed.
   */
  lemma SucceededCount(agent: PerPhase<PhaseResult>)
    ensures Attempted(agent) - 1 <= Succeeded(agent) <= Attempted(agent)
    ensures forall j :: 0 <= j < Attempted(agent) ==> (agent.At(Order[j]).success <==> j < Succeeded(agent))
    ensures AllSucceed(agent) <==> Succeeded(agent) == 6
  {
    var k := Attempted(agent);
    if !AllSucceed(agent) && k == 6 {
      var j :| 0 <= j < 6 && !agent.At(Order[j]).success;
      assert j == 5;
    }
  }

  /** Phase numbers tell phases apart. */
  lemma NumberInjective(p: Phase, q: Phase)
    requires Number(p) == Number(q)
    ensures p == q
  {
    NumberedOrder();
    assert p == Order[Number(p) - 1];
  }

  // ---------------------------------------------------------------------------
  // The result: fail-fast
  // ---------------------------------------------------------------------------

  /**
   * If phase k is the first to fail, the run fails with an error naming phase k and records
   * exactly phases 1..k, each with what its agent reported; the run succeeds, without an
   * error, exactly when all six phases do.
   */
  lemma FailFast(config: Config, w: World, date: string, tags: Tags.TagSelection, outputDir: string)
    ensures var r, k := ResultOf(config, w, date, tags, outputDir), Attempted(w.agent);
      && (r.success <==> AllSucceed(w.agent))
      && (r.error.None? <==> r.success)
      && (!r.success ==> !w.agent.At(Order[k - 1]).success)
      && (!r.success ==> var head := "Phase " + Decimal(k) + " (";
            |head| <= |r.error.value| && r.error.value[..|head|] == head)
      && (forall p :: p in r.phases <==> Number(p) <= k)
      && (forall p :: p in r.phases ==> r.phases[p] == w.agent.At(p))
  {
    SucceededCount(w.agent);
    OrderNumbers();
    NumberedOrder();
    var k := Attempted(w.agent);
    assert Number(Order[k - 1]) == k;
  }

  // ---------------------------------------------------------------------------
  // Keep on blocks and short displays
  // ---------------------------------------------------------------------------

  lemma KeepTwo(a: Effect, b: Effect, kind: Kind)
    ensures Keep([a, b], kind) == Keep([a], kind) + Keep([b], kind)
  {
    assert [a, b] == [a] + [b];
    KeepAppend([a], [b], kind);
  }

  lemma KeepThree(a: Effect, b: Effect, c: Effect, kind: Kind)
    ensures Keep([a, b, c], kind) == Keep([a], kind) + Keep([b], kind) + Keep([c], kind)
  {
    assert [a, b, c] == [a, b] + [c];
    KeepAppend([a, b], [c], kind);
    KeepTwo(a, b, kind);
  }

  lemma KeepBlock(config: Config, w: World, date: string, names: seq<string>, i: nat, kind: Kind)
    requires i < 6
    ensures Keep(Block(config, w, date, names, i), kind)
      == Keep(Invocation(w, Order[i]), kind)
         + (if w.agent.At(Order[i]).success then Keep(AfterSuccess(config, w, date, names, i), kind) else [])
  {
    var after := if w.agent.At(Order[i]).success then AfterSuccess(config, w, date, names, i) else [];
    KeepAppend(Invocation(w, Order[i]), after, kind);
  }

  lemma KeepBlocksNext(config: Config, w: World, date: string, names: seq<string>, k: nat, kind: Kind)
    requires 0 < k <= 6
    ensures Keep(Blocks(config, w, date, names, k), kind)
      == Keep(Blocks(config, w, date, names, k - 1), kind) + Keep(Block(config, w, date, names, k - 1), kind)
  {
    KeepAppend(Blocks(config, w, date, names, k - 1), Block(config, w, date, names, k - 1), kind);
  }

  lemma KeepTrace(config: Config, w: World, date: string, names: seq<string>, kind: Kind)
    ensures Keep(Trace(config, w, date, names), kind)
      == Keep([SaveMeta(MetaAfter(config, w, date, names, 0))], kind)
         + Keep(Blocks(config, w, date, names, Attempted(w.agent)), kind)
         + Keep(if AllSucceed(w.agent) then [SaveMeta(Completed(config, w, date, names))] else [], kind)
  {
    var first := [SaveMeta(MetaAfter(config, w, date, names, 0))];
    var blocks := Blocks(config, w, date, names, Attempted(w.agent));
    var last := if AllSucceed(w.agent) then [SaveMeta(Completed(config, w, date, names))] else [];
    KeepAppend(first + blocks, last, kind);
    KeepAppend(first, blocks, kind);
  }

  /** What the invocation of a phase contains of each kind of effect. */
  lemma InvocationKeeps(w: World, p: Phase)
    ensures Keep(Invocation(w, p), Invocations) == [InvokeOf(p)]
    ensures Keep(Invocation(w, p), LoopEvents) == if p == Implement then Invocation(w, p) else []
    ensures Keep(Invocation(w, p), Saves) == []
    ensures Keep(Invocation(w, p), Publishing) == []
  {
    if p == Implement {
      LoopTripleKeeps(LoopContent(w), LoopState.CleanupState(w.loopFileAfter, w.unlinkOk));
    } else {
      SingleInvokeKeeps(p);
    }
  }

  lemma LoopTripleKeeps(content: string, cleanup: LoopState.Cleanup)
    ensures var t := [WriteLoopState(content), InvokeOf(Implement), CleanupLoopState(cleanup)];
      && Keep(t, Invocations) == [InvokeOf(Implement)]
      && Keep(t, LoopEvents) == t
      && Keep(t, Saves) == []
      && Keep(t, Publishing) == []
  {
    var a, b, c := WriteLoopState(content), InvokeOf(Implement), CleanupLoopState(cleanup);
    KeepThreeOf(a, b, c, Invocations);
    KeepThreeOf(a, b, c, LoopEvents);
    KeepThreeOf(a, b, c, Saves);
    KeepThreeOf(a, b, c, Publishing);
  }

  /** The effects of a kind among three. */
  lemma KeepThreeOf(a: Effect, b: Effect, c: Effect, kind: Kind)
    ensures Keep([a, b, c], kind)
      == (if Is(kind, a) then [a] else []) + (if Is(kind, b) then [b] else []) + (if Is(kind, c) then [c] else [])
  {
    KeepThree(a, b, c, kind);
    KeepOne(a, kind);
    KeepOne(b, kind);
    KeepOne(c, kind);
  }

  lemma SingleInvokeKeeps(p: Phase)
    requires p != Implement
    ensures Keep([InvokeOf(p)], Invocations) == [InvokeOf(p)]
    ensures Keep([InvokeOf(p)], LoopEvents) == []
    ensures Keep([InvokeOf(p)], Saves) == []
    ensures Keep([InvokeOf(p)], Publishing) == []
  {
    KeepOne(InvokeOf(p), Invocations);
    KeepOne(InvokeOf(p), LoopEvents);
    KeepOne(InvokeOf(p), Saves);
    KeepOne(InvokeOf(p), Publishing);
  }

  /** The effects of a kind among two. */
  lemma KeepTwoOf(a: Effect, b: Effect, kind: Kind)
    ensures Keep([a, b], kind) == (if Is(kind, a) then [a] else []) + (if Is(kind, b) then [b] else [])
  {
    KeepTwo(a, b, kind);
    KeepOne(a, kind);
    KeepOne(b, kind);
  }

  /** Phase 1's success: a save, then repository creation and a save with its URL. */
  lemma AfterFirstKeeps(config: Config, w: World, date: string, names: seq<string>)
    ensures var after, saved := AfterFirst(config, w, date, names), MetaAfter(config, w, date, names, 1);
      && Keep(after, Invocations) == []
      && Keep(after, LoopEvents) == []
      && Keep(after, Saves)
         == [SaveMeta(saved.(repoUrl := None))] + (if ShouldCreate(config) && RepoCreated(w.repo) then [SaveMeta(saved)] else [])
      && Keep(after, Publishing) == if ShouldCreate(config) then [Publish(CreateRepo(RepoName(w)))] else []
  {
    var saved := MetaAfter(config, w, date, names, 1);
    FirstShape(saved.(repoUrl := None), CreateRepo(RepoName(w)), saved, ShouldCreate(config), RepoCreated(w.repo));
  }

  lemma FirstShape(m: Meta, s: PublishStep, m': Meta, create: bool, created: bool)
    ensures var after :=
        if !create then [SaveMeta(m)]
        else if !created then [SaveMeta(m), Publish(s)]
        else [SaveMeta(m), Publish(s), SaveMeta(m')];
      && Keep(after, Invocations) == []
      && Keep(after, LoopEvents) == []
      && Keep(after, Saves) == [SaveMeta(m)] + (if create && created then [SaveMeta(m')] else [])
      && Keep(after, Publishing) == if create then [Publish(s)] else []
  {
    var a, b, c := SaveMeta(m), Publish(s), SaveMeta(m');
    if !create {
      KeepOne(a, Invocations);
      KeepOne(a, LoopEvents);
      KeepOne(a, Saves);
      KeepOne(a, Publishing);
    } else if !created {
      KeepTwoOf(a, b, Invocations);
      KeepTwoOf(a, b, LoopEvents);
      KeepTwoOf(a, b, Saves);
      KeepTwoOf(a, b, Publishing);
    } else {
      KeepThreeOf(a, b, c, Invocations);
      KeepThreeOf(a, b, c, LoopEvents);
      KeepThreeOf(a, b, c, Saves);
      KeepThreeOf(a, b, c, Publishing);
    }
  }

  /** The success of phases 2 to 5: a save, then a commit while publishing is on. */
  lemma AfterMiddleKeeps(config: Config, w: World, date: string, names: seq<string>, i: nat)
    requires 1 <= i < 5
    ensures var after := AfterMiddle(config, w, date, names, i);
      && Keep(after, Invocations) == []
      && Keep(after, LoopEvents) == []
      && Keep(after, Saves) == [SaveMeta(MetaAfter(config, w, date, names, i + 1))]
      && Keep(after, Publishing) == if PublishingAfter(config, w, i) then [Publish(CommitOf(Order[i]))] else []
  {
    MiddleShape(MetaAfter(config, w, date, names, i + 1), CommitOf(Order[i]), PublishingAfter(config, w, i));
  }

  lemma MiddleShape(m: Meta, s: PublishStep, publishing: bool)
    ensures var after := if publishing then [SaveMeta(m), Publish(s)] else [SaveMeta(m)];
      && Keep(after, Invocations) == []
      && Keep(after, LoopEvents) == []
      && Keep(after, Saves) == [SaveMeta(m)]
      && Keep(after, Publishing) == if publishing then [Publish(s)] else []
  {
    var a, b := SaveMeta(m), Publish(s);
    if publishing {
      KeepTwoOf(a, b, Invocations);
      KeepTwoOf(a, b, LoopEvents);
      KeepTwoOf(a, b, Saves);
      KeepTwoOf(a, b, Publishing);
    } else {
      KeepOne(a, Invocations);
      KeepOne(a, LoopEvents);
      KeepOne(a, Saves);
      KeepOne(a, Publishing);
    }
  }

  /** Phase 6's success: a commit and the push while publishing is on, and no save. */
  lemma AfterLastKeeps(config: Config, w: World)
    ensures var after := AfterLast(config, w);
      && Keep(after, Invocations) == []
      && Keep(after, LoopEvents) == []
      && Keep(after, Saves) == []
      && Keep(after, Publishing) == after
  {
    if PublishingAfter(config, w, 5) {
      var a, b := Publish(CommitOf(Implement)), Publish(PushRepo);
      KeepTwoOf(a, b, Invocations);
      KeepTwoOf(a, b, LoopEvents);
      KeepTwoOf(a, b, Saves);
      KeepTwoOf(a, b, Publishing);
    }
  }

  /** After a phase succeeds, only saves and publishing steps follow. */
  lemma AfterSuccessQuiet(config: Config, w: World, date: string, names: seq<string>, i: nat)
    requires i < 6
    ensures Keep(AfterSuccess(config, w, date, names, i), Invocations) == []
    ensures Keep(AfterSuccess(config, w, date, names, i), LoopEvents) == []
  {
    if i == 0 {
      AfterFirstKeeps(config, w, date, names);
    } else if i < 5 {
      AfterMiddleKeeps(config, w, date, names, i);
    } else {
      AfterLastKeeps(config, w);
    }
  }

  // ---------------------------------------------------------------------------
  // Invocations
  // ---------------------------------------------------------------------------

  /** The invocations of the first `k` phases, in order. */
  function Invoked(k: nat): (inv: seq<Effect>)
    requires k <= 6
    ensures |inv| == k
    ensures forall j :: 0 <= j < k ==> inv[j] == InvokeOf(Order[j])
  {
    if k == 0 then [] else Invoked(k - 1) + [InvokeOf(Order[k - 1])]
  }

  /** Each block invokes its phase's agent once. */
  lemma BlockInvokes(config: Config, w: World, date: string, names: seq<string>, i: nat)
    requires i < 6
    ensures Keep(Block(config, w, date, names, i), Invocations) == [InvokeOf(Order[i])]
  {
    KeepBlock(config, w, date, names, i, Invocations);
    InvocationKeeps(w, Order[i]);
    AfterSuccessQuiet(config, w, date, names, i);
  }

  lemma {:induction false} InvokesUpTo(config: Config, w: World, date: string, names: seq<string>, k: nat)
    requires k <= 6
    ensures Keep(Blocks(config, w, date, names, k), Invocations) == Invoked(k)
  {
    if k > 0 {
      InvokesUpTo(config, w, date, names, k - 1);
      KeepBlocksNext(config, w, date, names, k, Invocations);
      BlockInvokes(config, w, date, names, k - 1);
    }
  }

  /**
   * The agents are invoked strictly in phase order, each once, up to and including the
   * first that fails; no later phase is invoked.
   */
  lemma InvokedInOrder(config: Config, w: World, date: string, names: seq<string>)
    ensures var inv := Keep(Trace(config, w, date, names), Invocations);
      && inv == Invoked(Attempted(w.agent))
      && (forall j :: 0 <= j < |inv| - 1 ==> w.agent.At(Order[j]).success)
      && (|inv| < 6 ==> !w.agent.At(Order[|inv| - 1]).success)
  {
    TraceBlocks(config, w, date, names, Invocations);
    InvokesUpTo(config, w, date, names, Attempted(w.agent));
  }

  // ---------------------------------------------------------------------------
  // The ralph-loop state
  // ---------------------------------------------------------------------------

  /** Only phase 6's block touches the loop state. */
  lemma BlockLoopEvents(config: Config, w: World, date: string, names: seq<string>, i: nat)
    requires i < 6
    ensures Keep(Block(config, w, date, names, i), LoopEvents) == if i == 5 then Invocation(w, Implement) else []
  {
    KeepBlock(config, w, date, names, i, LoopEvents);
    InvocationKeeps(w, Order[i]);
    AfterSuccessQuiet(config, w, date, names, i);
    OrderEnds(i);
  }

  lemma {:induction false} LoopEventsUpTo(config: Config, w: World, date: string, names: seq<string>, k: nat)
    requires k <= 6
    ensures Keep(Blocks(config, w, date, names, k), LoopEvents) == if k == 6 then Invocation(w, Implement) else []
  {
    if k > 0 {
      LoopEventsUpTo(config, w, date, names, k - 1);
      KeepBlocksNext(config, w, date, names, k, LoopEvents);
      BlockLoopEvents(config, w, date, names, k - 1);
    }
  }

  /**
   * The ralph-loop state is written just before phase 6's agent runs and cleaned up right
   * after it, whether or not that agent succeeded; none of it happens when an earlier phase
   * fails. The file written says iteration 1.
   */
  lemma LoopStateAroundImplement(config: Config, w: World, date: string, names: seq<string>)
    ensures Keep(Trace(config, w, date, names), LoopEvents)
      == if Attempted(w.agent) == 6
         then [WriteLoopState(LoopContent(w)), InvokeOf(Implement),
               CleanupLoopState(LoopState.CleanupState(w.loopFileAfter, w.unlinkOk))]
         else []
    ensures Attempted(w.agent) == 6 <==> forall j :: 0 <= j < 5 ==> w.agent.At(Order[j]).success
    ensures LoopState.IterationOf(LoopContent(w)) == "1"
  {
    TraceBlocks(config, w, date, names, LoopEvents);
    LoopEventsUpTo(config, w, date, names, Attempted(w.agent));
    LoopState.FreshStateIteration(w.implementPrompt, LoopState.MaxIterations, LoopState.CompletionPromise, w.loopClock);
  }

  // ---------------------------------------------------------------------------
  // Publishing
  // ---------------------------------------------------------------------------

  /** The commits after phases 2 to `m`, in order. */
  function CommitsThrough(m: nat): (c: seq<Effect>)
    requires 1 <= m <= 6
    ensures |c| == m - 1
    ensures forall j :: 0 <= j < |c| ==> c[j] == Publish(CommitOf(Order[j + 1]))
  {
    if m == 1 then [] else CommitsThrough(m - 1) + [Publish(CommitOf(Order[m - 1]))]
  }

  /**
   * The publishing steps of a run whose first `m` phases succeed, named `name`: after
   * phase 1, creation while `create` is on; then, only if creation succeeded (`created`), a
   * commit after each later phase and the push after phase 6.
   */
  function PublishPlan(create: bool, created: bool, name: string, m: nat): (pubs: seq<Effect>)
    requires m <= 6
    ensures forall j :: 0 <= j < |pubs| ==> pubs[j].Publish?
  {
    if m == 0 || !create then []
    else [Publish(CreateRepo(name))] + (if created then CommitsThrough(m) + (if m == 6 then [Publish(PushRepo)] else []) else [])
  }

  /** What the block of phase `Order[i]` publishes once its agent has succeeded. */
  function Published(create: bool, created: bool, name: string, i: nat): seq<Effect>
    requires i < 6
  {
    if i == 0 then (if create then [Publish(CreateRepo(name))] else [])
    else if !create || !created then []
    else if i < 5 then [Publish(CommitOf(Order[i]))]
    else [Publish(CommitOf(Implement)), Publish(PushRepo)]
  }

  /** Each successful phase extends the plan by what its block publishes. */
  lemma PublishPlanNext(create: bool, created: bool, name: string, i: nat)
    requires i < 6
    ensures PublishPlan(create, created, name, i) + Published(create, created, name, i)
      == PublishPlan(create, created, name, i + 1)
  {
    if 0 < i && create && created {
      var start := [Publish(CreateRepo(name))];
      var commit := [Publish(CommitOf(Order[i]))];
      assert CommitsThrough(i + 1) == CommitsThrough(i) + commit;
      if i < 5 {
        assert start + (CommitsThrough(i) + []) + commit == start + (CommitsThrough(i + 1) + []);
      } else {
        assert start + (CommitsThrough(5) + []) + (commit + [Publish(PushRepo)])
            == start + (CommitsThrough(6) + [Publish(PushRepo)]);
      }
    }
  }

  /** The publishing steps of the block of phase `Order[i]`, once its agent has succeeded. */
  lemma AfterSuccessPublishes(config: Config, w: World, date: string, names: seq<string>, i: nat)
    requires i < 6
    ensures Keep(AfterSuccess(config, w, date, names, i), Publishing)
      == Published(ShouldCreate(config), RepoCreated(w.repo), RepoName(w), i)
  {
    if i == 0 {
      AfterFirstKeeps(config, w, date, names);
    } else if i < 5 {
      AfterMiddleKeeps(config, w, date, names, i);
    } else {
      AfterLastKeeps(config, w);
    }
  }

  /** What the first `k` blocks publish, when their phases all succeed. */
  lemma {:induction false} PublishesUpTo(config: Config, w: World, date: string, names: seq<string>, k: nat)
    requires k <= 6 && forall j :: 0 <= j < k ==> w.agent.At(Order[j]).success
    ensures Keep(Blocks(config, w, date, names, k), Publishing)
      == PublishPlan(ShouldCreate(config), RepoCreated(w.repo), RepoName(w), k)
  {
    if k > 0 {
      var create, created, name := ShouldCreate(config), RepoCreated(w.repo), RepoName(w);
      PublishesUpTo(config, w, date, names, k - 1);
      KeepBlocksNext(config, w, date, names, k, Publishing);
      BlockPublishes(config, w, date, names, k - 1);
      PublishPlanNext(create, created, name, k - 1);
    }
  }

  /** What the block of phase `Order[i]` publishes. */
  lemma BlockPublishes(config: Config, w: World, date: string, names: seq<string>, i: nat)
    requires i < 6
    ensures Keep(Block(config, w, date, names, i), Publishing)
      == if w.agent.At(Order[i]).success then Published(ShouldCreate(config), RepoCreated(w.repo), RepoName(w), i) else []
  {
    KeepBlock(config, w, date, names, i, Publishing);
    InvocationKeeps(w, Order[i]);
    if w.agent.At(Order[i]).success {
      AfterSuccessPublishes(config, w, date, names, i);
    }
  }

  /** Which commits the plan holds. */
  lemma CommitsThroughHolds(m: nat, p: Phase)
    requires 1 <= m <= 6
    ensures Publish(CommitOf(p)) in CommitsThrough(m) <==> p != CreativeDirector && Number(p) <= m
  {
    var c := CommitsThrough(m);
    OrderNumbers();
    NumberedOrder();
    if p != CreativeDirector && Number(p) <= m {
      assert c[Number(p) - 2] == Publish(CommitOf(p));
    }
    if Publish(CommitOf(p)) in c {
      var j :| 0 <= j < |c| && c[j] == Publish(CommitOf(p));
      assert p == Order[j + 1];
    }
  }

  /**
   * The publishing rules, for steps `pubs` of a run in which the first `n` phases succeed:
   * creating repository `name` is attempted once, first, exactly when `create` is on and
   * phase 1 succeeds; if creation fails (`created` is off) nothing else is published;
   * otherwise each later phase that succeeds is committed, and the push is the last step,
   * made exactly when all six phases succeed.
   */
  predicate PublishRules(pubs: seq<Effect>, create: bool, created: bool, name: string, n: nat) {
    && (forall j :: 0 <= j < |pubs| ==> pubs[j].Publish?)
    && (Publish(CreateRepo(name)) in pubs <==> create && n >= 1)
    && (forall j :: 0 <= j < |pubs| && pubs[j].step.CreateRepo? ==> j == 0)
    && (forall j :: 0 <= j < |pubs| && !pubs[j].step.CreateRepo? ==> create && created)
    && (forall p :: Publish(CommitOf(p)) in pubs <==> p != CreativeDirector && Number(p) <= n && create && created)
    && (Publish(PushRepo) in pubs <==> n == 6 && create && created)
    && (forall j :: 0 <= j < |pubs| && pubs[j].step.PushRepo? ==> j == |pubs| - 1)
  }

  /** The plan keeps the publishing rules. */
  lemma PlanRules(create: bool, created: bool, name: string, m: nat)
    requires m <= 6
    ensures PublishRules(PublishPlan(create, created, name, m), create, created, name, m)
  {
    if m >= 1 && create {
      if created {
        CreatedPlanRules(name, m);
      } else {
        assert PublishPlan(create, created, name, m) == [Publish(CreateRepo(name))];
      }
    }
  }

  lemma CreatedPlanRules(name: string, m: nat)
    requires 1 <= m <= 6
    ensures PublishRules(PublishPlan(true, true, name, m), true, true, name, m)
  {
    var pubs := PublishPlan(true, true, name, m);
    var commits := CommitsThrough(m);
    var push := if m == 6 then [Publish(PushRepo)] else [];
    assert pubs == [Publish(CreateRepo(name))] + commits + push;
    forall p ensures Publish(CommitOf(p)) in commits <==> p != CreativeDirector && Number(p) <= m {
      CommitsThroughHolds(m, p);
    }
    LayoutRules(name, commits, push, m, pubs);
  }

  /** Creation, then commits only, then the push exactly after phase 6, keep the rules. */
  lemma LayoutRules(name: string, commits: seq<Effect>, push: seq<Effect>, n: nat, pubs: seq<Effect>)
    requires 1 <= n && pubs == [Publish(CreateRepo(name))] + commits + push
    requires forall j :: 0 <= j < |commits| ==> commits[j].Publish? && commits[j].step.CommitOf?
    requires forall p :: Publish(CommitOf(p)) in commits <==> p != CreativeDirector && Number(p) <= n
    requires push == if n == 6 then [Publish(PushRepo)] else []
    ensures PublishRules(pubs, true, true, name, n)
  {
    assert forall j :: 1 <= j < 1 + |commits| ==> pubs[j] == commits[j - 1];
    assert pubs[0] == Publish(CreateRepo(name));
    forall p ensures Publish(CommitOf(p)) in pubs <==> Publish(CommitOf(p)) in commits {
    }
  }

  /** The publishing steps of a whole run are the plan for the phases that succeed. */
  lemma TracePublishes(config: Config, w: World, date: string, names: seq<string>)
    ensures Keep(Trace(config, w, date, names), Publishing)
      == PublishPlan(ShouldCreate(config), RepoCreated(w.repo), RepoName(w), Succeeded(w.agent))
  {
    TraceBlocks(config, w, date, names, Publishing);
    SucceededCount(w.agent);
    var n := Succeeded(w.agent);
    if n == 6 {
      PublishesUpTo(config, w, date, names, 6);
    } else {
      StopPublishes(config, w, date, names, n);
    }
  }

  /** The block of the phase that fails publishes nothing. */
  lemma StopPublishes(config: Config, w: World, date: string, names: seq<string>, n: nat)
    requires n < 6 && (forall j :: 0 <= j < n ==> w.agent.At(Order[j]).success) && !w.agent.At(Order[n]).success
    ensures Keep(Blocks(config, w, date, names, n + 1), Publishing)
      == PublishPlan(ShouldCreate(config), RepoCreated(w.repo), RepoName(w), n)
  {
    PublishesUpTo(config, w, date, names, n);
    KeepBlocksNext(config, w, date, names, n + 1, Publishing);
    BlockPublishes(config, w, date, names, n);
    var plan := PublishPlan(ShouldCreate(config), RepoCreated(w.repo), RepoName(w), n);
    assert plan + [] == plan;
  }

  /**
   * A run keeps the publishing rules, where the phases that succeed are counted by
   * `Succeeded`: phase 1 is among them exactly when it succeeds, and all six exactly when
   * every phase does.
   */
  lemma PublishingRules(config: Config, w: World, date: string, names: seq<string>)
    ensures PublishRules(Keep(Trace(config, w, date, names), Publishing),
                         ShouldCreate(config), RepoCreated(w.repo), RepoName(w), Succeeded(w.agent))
    ensures Succeeded(w.agent) >= 1 <==> w.agent.At(CreativeDirector).success
    ensures Succeeded(w.agent) == 6 <==> AllSucceed(w.agent)
  {
    TracePublishes(config, w, date, names);
    PlanRules(ShouldCreate(config), RepoCreated(w.repo), RepoName(w), Succeeded(w.agent));
    SucceededCount(w.agent);
    assert Order[0] == CreativeDirector;
  }

  // ---------------------------------------------------------------------------
  // Metadata saves
  // ---------------------------------------------------------------------------

  /** Every phase has a flag, set once that many phases have succeeded. */
  lemma FlagsMeaning(n: nat)
    ensures forall p :: p in Flags(n) && (Flags(n)[p] <==> Number(p) <= n)
  {
    forall p ensures p in Order {
      NumberedOrder();
      assert Order[Number(p) - 1] == p;
    }
  }

  /** From flags `a` to flags `b`: no flag is cleared and at most one is set. */
  predicate RaisesAtMostOne(a: map<Phase, bool>, b: map<Phase, bool>) {
    && a.Keys == b.Keys
    && (forall p :: p in a && a[p] ==> b[p])
    && (forall p, q :: p in a && q in a && !a[p] && b[p] && !a[q] && b[q] ==> p == q)
  }

  lemma FlagsStep(l: nat, l': nat)
    requires l <= l' <= l + 1
    ensures RaisesAtMostOne(Flags(l), Flags(l'))
  {
    FlagsMeaning(l);
    FlagsMeaning(l');
    var a, b := Flags(l), Flags(l');
    forall p, q | p in a && q in a && !a[p] && b[p] && !a[q] && b[q] ensures p == q {
      NumberInjective(p, q);
    }
  }

  /**
   * The rules `meta.json` follows over a run's saves, in a run whose first `n` phases
   * succeed (`all` when all six do): the first save flags nothing; each save clears no flag
   * and sets at most one; the last flags exactly the phases that succeeded; and only the
   * last save, made when all six succeed, marks the run complete and successful.
   */
  predicate SaveRules(saves: seq<Effect>, n: nat, all: bool) {
    && (forall j :: 0 <= j < |saves| ==> saves[j].SaveMeta?)
    && |saves| >= 1
    && saves[0].meta.phases == Flags(0)
    && (forall j :: 0 <= j < |saves| - 1 ==> RaisesAtMostOne(saves[j].meta.phases, saves[j + 1].meta.phases))
    && saves[|saves| - 1].meta.phases == Flags(n)
    && (forall j :: 0 <= j < |saves| ==> (saves[j].meta.success.Some? <==> all && j == |saves| - 1))
    && (forall j :: 0 <= j < |saves| ==> (saves[j].meta.completedAt.Some? <==> all && j == |saves| - 1))
  }

  /** Saves made during the phases: each flags `levels[j]` phases and marks no completion. */
  predicate SavedAt(saves: seq<Effect>, levels: seq<nat>) {
    && |saves| == |levels|
    && forall j :: 0 <= j < |saves| ==>
         && saves[j].SaveMeta? && saves[j].meta.phases == Flags(levels[j])
         && saves[j].meta.completedAt.None? && saves[j].meta.success.None?
  }

  lemma SavedAtAppend(a: seq<Effect>, la: seq<nat>, b: seq<Effect>, lb: seq<nat>)
    requires SavedAt(a, la) && SavedAt(b, lb)
    ensures SavedAt(a + b, la + lb)
  {
    forall j | |a| <= j < |a| + |b|
      ensures (a + b)[j] == b[j - |a|] && (la + lb)[j] == lb[j - |a|]
    {
    }
  }

  /** Levels that start anywhere and climb by at most one at a time. */
  predicate Climbs(levels: seq<nat>) {
    forall j :: 0 <= j < |levels| - 1 ==> levels[j] <= levels[j + 1] <= levels[j] + 1
  }

  /** How many phases the saves of successful block `i` flag. */
  function BlockLevels(create: bool, created: bool, i: nat): seq<nat> {
    if i == 0 then (if create && created then [1, 1] else [1])
    else if i < 5 then [i + 1]
    else []
  }

  function LevelsThrough(create: bool, created: bool, k: nat): seq<nat>
    requires k <= 6
  {
    if k == 0 then [] else LevelsThrough(create, created, k - 1) + BlockLevels(create, created, k - 1)
  }

  lemma {:induction false} LevelsClimb(create: bool, created: bool, k: nat)
    requires k <= 6
    ensures var levels := [0] + LevelsThrough(create, created, k);
      Climbs(levels) && levels[|levels| - 1] == if k == 6 then 5 else k
  {
    if k > 0 {
      LevelsClimb(create, created, k - 1);
      var prev := [0] + LevelsThrough(create, created, k - 1);
      var added := BlockLevels(create, created, k - 1);
      assert [0] + LevelsThrough(create, created, k) == prev + added;
      forall j | 0 <= j < |prev + added| - 1
        ensures (prev + added)[j] <= (prev + added)[j + 1] <= (prev + added)[j] + 1
      {
        if j + 1 < |prev| {
          assert (prev + added)[j] == prev[j] && (prev + added)[j + 1] == prev[j + 1];
        } else if j + 1 == |prev| {
          assert (prev + added)[j] == prev[|prev| - 1] && (prev + added)[j + 1] == added[0];
        } else {
          assert (prev + added)[j] == added[j - |prev|] && (prev + added)[j + 1] == added[j + 1 - |prev|];
        }
      }
    }
  }

  /** The saves of a successful block. */
  lemma BlockSaves(config: Config, w: World, date: string, names: seq<string>, i: nat)
    requires i < 6 && w.agent.At(Order[i]).success
    ensures SavedAt(Keep(Block(config, w, date, names, i), Saves), BlockLevels(ShouldCreate(config), RepoCreated(w.repo), i))
  {
    KeepBlock(config, w, date, names, i, Saves);
    InvocationKeeps(w, Order[i]);
    var after := Keep(AfterSuccess(config, w, date, names, i), Saves);
    AfterSuccessSaves(config, w, date, names, i, after);
    assert [] + after == after;
  }

  lemma AfterSuccessSaves(config: Config, w: World, date: string, names: seq<string>, i: nat, saves: seq<Effect>)
    requires i < 6 && saves == Keep(AfterSuccess(config, w, date, names, i), Saves)
    ensures SavedAt(saves, BlockLevels(ShouldCreate(config), RepoCreated(w.repo), i))
  {
    if i == 0 {
      FirstBlockSaves(config, w, date, names, saves);
    } else if i < 5 {
      MiddleBlockSaves(config, w, date, names, i, saves);
    } else {
      AfterLastKeeps(config, w);
    }
  }

  lemma FirstBlockSaves(config: Config, w: World, date: string, names: seq<string>, saves: seq<Effect>)
    requires saves == Keep(AfterFirst(config, w, date, names), Saves)
    ensures SavedAt(saves, BlockLevels(ShouldCreate(config), RepoCreated(w.repo), 0))
  {
    AfterFirstKeeps(config, w, date, names);
    FirstSavesAt(saves, MetaAfter(config, w, date, names, 1), ShouldCreate(config), RepoCreated(w.repo));
  }

  lemma MiddleBlockSaves(config: Config, w: World, date: string, names: seq<string>, i: nat, saves: seq<Effect>)
    requires 1 <= i < 5 && saves == Keep(AfterMiddle(config, w, date, names, i), Saves)
    ensures SavedAt(saves, BlockLevels(ShouldCreate(config), RepoCreated(w.repo), i))
  {
    AfterMiddleKeeps(config, w, date, names, i);
    OneSaveAt(saves, MetaAfter(config, w, date, names, i + 1), ShouldCreate(config), RepoCreated(w.repo), i);
  }

  lemma FirstSavesAt(saves: seq<Effect>, m: Meta, create: bool, created: bool)
    requires m.phases == Flags(1) && m.completedAt.None? && m.success.None?
    requires saves == [SaveMeta(m.(repoUrl := None))] + (if create && created then [SaveMeta(m)] else [])
    ensures SavedAt(saves, BlockLevels(create, created, 0))
  {
  }

  lemma OneSaveAt(saves: seq<Effect>, m: Meta, create: bool, created: bool, i: nat)
    requires 1 <= i < 5 && m.phases == Flags(i + 1) && m.completedAt.None? && m.success.None?
    requires saves == [SaveMeta(m)]
    ensures SavedAt(saves, BlockLevels(create, created, i))
  {
  }

  lemma {:induction false} SavesUpTo(config: Config, w: World, date: string, names: seq<string>, k: nat)
    requires k <= 6 && forall j :: 0 <= j < k ==> w.agent.At(Order[j]).success
    ensures SavedAt(Keep(Blocks(config, w, date, names, k), Saves), LevelsThrough(ShouldCreate(config), RepoCreated(w.repo), k))
  {
    if k > 0 {
      SavesUpTo(config, w, date, names, k - 1);
      KeepBlocksNext(config, w, date, names, k, Saves);
      BlockSaves(config, w, date, names, k - 1);
      SavedAtAppend(Keep(Blocks(config, w, date, names, k - 1), Saves), LevelsThrough(ShouldCreate(config), RepoCreated(w.repo), k - 1),
                    Keep(Block(config, w, date, names, k - 1), Saves), BlockLevels(ShouldCreate(config), RepoCreated(w.repo), k - 1));
    }
  }

  /** The block of the phase that fails saves nothing. */
  lemma StopSaves(config: Config, w: World, date: string, names: seq<string>, n: nat)
    requires n < 6 && !w.agent.At(Order[n]).success
    ensures Keep(Blocks(config, w, date, names, n + 1), Saves) == Keep(Blocks(config, w, date, names, n), Saves)
  {
    KeepBlocksNext(config, w, date, names, n + 1, Saves);
    FailedBlockSaves(config, w, date, names, n);
    var prev := Keep(Blocks(config, w, date, names, n), Saves);
    assert prev + [] == prev;
  }

  lemma FailedBlockSaves(config: Config, w: World, date: string, names: seq<string>, i: nat)
    requires i < 6 && !w.agent.At(Order[i]).success
    ensures Keep(Block(config, w, date, names, i), Saves) == []
  {
    KeepBlock(config, w, date, names, i, Saves);
    InvocationKeeps(w, Order[i]);
  }

  /** The saves of a whole run: the first, those of the phase blocks, and the completion. */
  lemma TraceSaves(config: Config, w: World, date: string, names: seq<string>)
    ensures var body := [SaveMeta(MetaAfter(config, w, date, names, 0))] + Keep(Blocks(config, w, date, names, Attempted(w.agent)), Saves);
      && SavedAt(body, [0] + LevelsThrough(ShouldCreate(config), RepoCreated(w.repo), Succeeded(w.agent)))
      && Keep(Trace(config, w, date, names), Saves)
         == body + (if AllSucceed(w.agent) then [SaveMeta(Completed(config, w, date, names))] else [])
  {
    TraceKeeps(config, w, date, names, Saves);
    SucceededCount(w.agent);
    var n := Succeeded(w.agent);
    SavesUpTo(config, w, date, names, n);
    if n < 6 {
      StopSaves(config, w, date, names, n);
    }
    var first := SaveMeta(MetaAfter(config, w, date, names, 0));
    assert SavedAt([first], [0]);
    SavedAtAppend([first], [0], Keep(Blocks(config, w, date, names, n), Saves), LevelsThrough(ShouldCreate(config), RepoCreated(w.repo), n));
  }

  /** Saves at climbing levels, then the completion when all phases succeed, keep the rules. */
  lemma SaveRulesFromLevels(body: seq<Effect>, levels: seq<nat>, completed: Meta, n: nat, all: bool, saves: seq<Effect>)
    requires SavedAt(body, levels) && |levels| >= 1 && levels[0] == 0 && Climbs(levels)
    requires levels[|levels| - 1] == if all then 5 else n
    requires all ==> n == 6 && completed.phases == Flags(6) && completed.success.Some? && completed.completedAt.Some?
    requires saves == body + (if all then [SaveMeta(completed)] else [])
    ensures SaveRules(saves, n, all)
    ensures all ==> saves[|saves| - 1] == SaveMeta(completed)
  {
    BodyRaises(body, levels);
    if all {
      CompletedSaveRules(body, levels, completed);
    } else {
      assert body + [] == body;
    }
  }

  /** Saves at climbing levels raise at most one flag at a time. */
  lemma BodyRaises(body: seq<Effect>, levels: seq<nat>)
    requires SavedAt(body, levels) && Climbs(levels)
    ensures forall j :: 0 <= j < |body| - 1 ==> RaisesAtMostOne(body[j].meta.phases, body[j + 1].meta.phases)
  {
    forall j | 0 <= j < |body| - 1
      ensures RaisesAtMostOne(body[j].meta.phases, body[j + 1].meta.phases)
    {
      FlagsStep(levels[j], levels[j + 1]);
    }
  }

  /** The completion save follows saves that flag five phases. */
  lemma CompletedSaveRules(body: seq<Effect>, levels: seq<nat>, completed: Meta)
    requires SavedAt(body, levels) && |levels| >= 1 && levels[0] == 0 && levels[|levels| - 1] == 5
    requires forall j :: 0 <= j < |body| - 1 ==> RaisesAtMostOne(body[j].meta.phases, body[j + 1].meta.phases)
    requires completed.phases == Flags(6) && completed.success.Some? && completed.completedAt.Some?
    ensures SaveRules(body + [SaveMeta(completed)], 6, true)
  {
    var saves := body + [SaveMeta(completed)];
    CompletedMarks(body, levels, completed, saves);
    CompletedRaises(body, levels, completed, saves);
    assert saves[0] == body[0];
  }

  /** Only the appended completion save marks success and a completion time. */
  lemma CompletedMarks(body: seq<Effect>, levels: seq<nat>, completed: Meta, saves: seq<Effect>)
    requires SavedAt(body, levels) && saves == body + [SaveMeta(completed)]
    requires completed.success.Some? && completed.completedAt.Some?
    ensures forall j :: 0 <= j < |saves| ==> saves[j].SaveMeta?
    ensures forall j :: 0 <= j < |saves| ==> (saves[j].meta.success.Some? <==> j == |saves| - 1)
    ensures forall j :: 0 <= j < |saves| ==> (saves[j].meta.completedAt.Some? <==> j == |saves| - 1)
  {
    assert forall j :: 0 <= j < |body| ==> saves[j] == body[j];
  }

  /** Appending the completion to saves ending at five phases still raises one flag at a time. */
  lemma CompletedRaises(body: seq<Effect>, levels: seq<nat>, completed: Meta, saves: seq<Effect>)
    requires SavedAt(body, levels) && |levels| >= 1 && levels[|levels| - 1] == 5
    requires forall j :: 0 <= j < |body| - 1 ==> RaisesAtMostOne(body[j].meta.phases, body[j + 1].meta.phases)
    requires completed.phases == Flags(6) && saves == body + [SaveMeta(completed)]
    ensures forall j :: 0 <= j < |saves| - 1 ==> RaisesAtMostOne(saves[j].meta.phases, saves[j + 1].meta.phases)
  {
    forall j | 0 <= j < |saves| - 1
      ensures RaisesAtMostOne(saves[j].meta.phases, saves[j + 1].meta.phases)
    {
      assert saves[j] == body[j];
      if j + 1 == |body| {
        FlagsStep(5, 6);
      } else {
        assert saves[j + 1] == body[j + 1];
      }
    }
  }

  /**
   * `meta.json` over a run keeps the save rules, where the phases that succeed are counted
   * by `Succeeded`; when all six succeed the last save is the completed metadata.
   */
  lemma MetadataSaves(config: Config, w: World, date: string, names: seq<string>)
    ensures SaveRules(Keep(Trace(config, w, date, names), Saves), Succeeded(w.agent), AllSucceed(w.agent))
    ensures AllSucceed(w.agent) ==>
      var saves := Keep(Trace(config, w, date, names), Saves);
      |saves| > 0 && saves[|saves| - 1] == SaveMeta(Completed(config, w, date, names))
  {
    TraceSaves(config, w, date, names);
    SucceededCount(w.agent);
    var n, all := Succeeded(w.agent), AllSucceed(w.agent);
    var create, created := ShouldCreate(config), RepoCreated(w.repo);
    LevelsClimb(create, created, n);
    var body := [SaveMeta(MetaAfter(config, w, date, names, 0))] + Keep(Blocks(config, w, date, names, Attempted(w.agent)), Saves);
    SaveRulesFromLevels(body, [0] + LevelsThrough(create, created, n), Completed(config, w, date, names), n, all,
                        Keep(Trace(config, w, date, names), Saves));
  }

  /** Only the saves at either end of the trace lie outside the phase blocks. */
  lemma TraceKeeps(config: Config, w: World, date: string, names: seq<string>, kind: Kind)
    ensures Keep(Trace(config, w, date, names), kind)
      == (if kind == Saves then [SaveMeta(MetaAfter(config, w, date, names, 0))] else [])
         + Keep(Blocks(config, w, date, names, Attempted(w.agent)), kind)
         + (if kind == Saves && AllSucceed(w.agent) then [SaveMeta(Completed(config, w, date, names))] else [])
  {
    KeepTrace(config, w, date, names, kind);
    EndsShape(MetaAfter(config, w, date, names, 0), Completed(config, w, date, names), AllSucceed(w.agent), kind);
  }

  /** Effects other than saves come from the phase blocks alone. */
  lemma TraceBlocks(config: Config, w: World, date: string, names: seq<string>, kind: Kind)
    requires kind != Saves
    ensures Keep(Trace(config, w, date, names), kind) == Keep(Blocks(config, w, date, names, Attempted(w.agent)), kind)
  {
    TraceKeeps(config, w, date, names, kind);
  }

  lemma EndsShape(first: Meta, last: Meta, all: bool, kind: Kind)
    ensures Keep([SaveMeta(first)], kind) == if kind == Saves then [SaveMeta(first)] else []
    ensures Keep(if all then [SaveMeta(last)] else [], kind) == if kind == Saves && all then [SaveMeta(last)] else []
  {
    KeepOne(SaveMeta(first), kind);
    KeepOne(SaveMeta(last), kind);
  }
}
