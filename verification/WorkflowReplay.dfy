/** What a replay after recovery does not notice: a history from the start for each such change. */
module WorkflowReplay {
  import opened Options
  import opened RunStatus
  import opened Patches
  import Evidence
  import opened Sandbox
  import opened Workflow
  import opened WorkflowRuns

  // ------------------------------------------------------------------ verification

  const METRICS := "read_metrics"

  /** The model cites the first observation and the one its verification has just made. */
  function Supporting(m: Machine, n: nat): Input
    requires m.state.evidence != []
  {
    Say([], [], Good(METRICS, n)).(supported := true, conclusion := [m.state.evidence[0].id, m.nextId + 1])
  }

  /** Two observations of different tools, the last one among them. */
  lemma TwoSources(evidence: seq<Evidence.Item>, item: Evidence.Item)
    requires evidence != [] && evidence[0].source != item.source
    ensures Concluded([evidence[0].id, item.id], evidence + [item], true)
  {
    var all, cited := evidence + [item], [evidence[0].id, item.id];
    assert all[0].id == cited[0] && all[|all| - 1].id == cited[1];
    assert {evidence[0].source, item.source} <= CitedSources(cited, all) by {
      assert all[0].id in cited && all[|all| - 1].id in cited;
    }
    TwoElements(evidence[0].source, item.source, CitedSources(cited, all));
  }

  lemma TwoElements<T>(a: T, b: T, s: set<T>)
    requires a != b && {a, b} <= s
    ensures |s| >= 2
  {
    assert |s - {a, b}| + |{a, b}| == |s|;
  }

  /** The supported verification leaves a verified root cause and goes on to the sandbox. */
  lemma SupportedNode(cfg: Config, m: Machine, n: nat)
    requires !cfg.investigationOnly && n > 0 && m.state.hypotheses != [] && m.state.status == Running
    requires Gathered(cfg, m.state.calls, m.state.evidence, m.nextId, n) && m.toolCalls == n < cfg.maxToolCalls
    ensures var v := VerifyNode(cfg, m, Supporting(m, n));
            && v.saved == m.saved && v.state.status == Running && v.state.root.Some?
            && v.state.attempts == m.state.attempts && RouteVerify(cfg, v) == CreateSandbox
  {
    TellsNew(cfg, m, METRICS, n);
    ObserveOne(cfg, m.state.calls, m.state.evidence, METRICS, m.nextId, n);
    TwoSources(m.state.evidence, GoodItem(cfg, METRICS, n, m.nextId));
  }

  /** At a node of the patch phase, with nothing tried so far. */
  predicate Patching(m: Machine, node: Node) {
    m.saved.None? && m.node == node && m.state.status == Running && m.state.root.Some?
  }

  lemma VerifySupports(cfg: Config, m: Machine, n: nat, calls: nat, used: nat, taken: int)
    returns (s: Step, m': Machine)
    requires !cfg.investigationOnly && 0 < n < cfg.maxToolCalls
    requires Stands(cfg, m, Verify, n, 0, calls, used, used, taken) && m.state.hypotheses != []
    ensures m' == Advanced(cfg, m, s) && Patching(m', CreateSandbox) && m'.state.attempts == []
  {
    var r := Restored(m);
    var input := Supporting(r, n);
    s := Run(input);
    VerifyRuns(cfg, m, input);
    SupportedNode(cfg, r, n);
    m' := Advanced(cfg, m, s);
  }

  /** Two observations, a hypothesis, and its verification. */
  lemma RootCauseFound(cfg: Config) returns (steps: seq<Step>)
    requires !cfg.direct && !cfg.investigationOnly && cfg.maxSteps >= 4 && cfg.maxToolCalls >= 3
    ensures Patching(History(cfg, Start(), steps), CreateSandbox)
    ensures History(cfg, Start(), steps).state.attempts == []
  {
    steps := Planned(cfg);
    var s1 := ObservingRound(cfg, History(cfg, Start(), steps), 3);
    steps := Extend(cfg, steps, s1);
    var s2, m2 := FormGoesOn(cfg, History(cfg, Start(), steps), 2, 0, 2, 3, 3);
    steps := Extend(cfg, steps, s2);
    var s3, m3 := VerifySupports(cfg, m2, 2, 2, 3, 3);
    steps := Extend(cfg, steps, s3);
  }

  // ------------------------------------------------------------------- patch phase

  function Facing(source: Source, patch: Patch, exit: Option<int>): Input {
    Say([], [], BAD).(source := source, patch := patch, exit := exit)
  }

  lemma SandboxMade(cfg: Config, m: Machine, source: Source, patch: Patch)
    requires Patching(m, CreateSandbox) && Created(cfg.repo, source, cfg.isProtected).Some?
    ensures var m' := Advanced(cfg, m, Run(Facing(source, patch, None)));
            Patching(m', Generate) && m'.state.attempts == m.state.attempts
              && m'.runtime == Runtime(Some(Copied(cfg.repo, source)), false)
  {
    var o := Restored(m).(runtime := Runtime(Some(Copied(cfg.repo, source)), false));
    assert RunNode(cfg, m, Facing(source, patch, None)) == Done(o);
  }

  /** The first attempt, applied and not yet tested. */
  function FirstAttempt(patch: Patch, base: Base): Attempt {
    Attempt(Some(patch), Applied, Some(base), None, 0)
  }

  lemma GenerateRuns(cfg: Config, m: Machine, input: Input, o: Machine)
    requires Patching(m, Generate) && !input.raises && GenerateNode(cfg, Restored(m), input) == Done(o)
    ensures Advanced(cfg, m, Run(input)) == o.(node := Route(cfg, Generate, o), executed := o.executed + 1)
  {
    assert RunNode(cfg, m, input) == Done(o);
  }

  lemma FirstDraft(cfg: Config, m: Machine, source: Source, patch: Patch)
    requires Patching(m, Generate) && m.state.attempts == [] && m.runtime.workspace.Some? && cfg.maxPatches >= 1
    requires Apply(m.runtime.workspace.value.files, patch).Some?
    ensures var m' := Advanced(cfg, m, Run(Facing(source, patch, None)));
            var w := m.runtime.workspace.value;
            && Patching(m', RunTests) && m'.state.attempts == [FirstAttempt(patch, w.base)]
            && m'.runtime.workspace == Some(w.(files := Apply(w.files, patch).value))
  {
    var input := Facing(source, patch, None);
    var o := GenerateNode(cfg, Restored(m), input);
    assert o == DraftPatch(cfg, Restored(m), input);
    GenerateRuns(cfg, m, input, o.machine);
  }

  /** The process dies before the tests: the attempt is in the checkpoint, the workspace is gone. */
  lemma DiesBeforeTests(cfg: Config, m: Machine)
    requires Patching(m, RunTests)
    ensures var m' := Advanced(cfg, m, Die(Say([], [], BAD).(raises := true)));
            Patching(m', RunTests) && m'.state == m.state && m'.runtime == NO_RUNTIME
  {
    assert RunNode(cfg, m, Say([], [], BAD).(raises := true)) == Raised(Restored(m));
  }

  /** The copy of the source at hand, with the recorded patch applied to it. */
  function Replayed(repo: Repository, source: Source, patch: Patch): Option<Workspace> {
    match Apply(Copied(repo, source).origin, patch)
    case None => None
    case Some(files) => Some(Copied(repo, source).(files := files))
  }

  lemma ReplayBuilds(cfg: Config, m: Machine, input: Input, patch: Patch)
    requires Patching(m, RunTests) && m.runtime == NO_RUNTIME
    requires Created(cfg.repo, input.source, cfg.isProtected).Some?
    requires Replayed(cfg.repo, input.source, patch).Some?
    requires m.state.attempts == [FirstAttempt(patch, BaseOf(cfg.repo, input.source))]
    ensures EnsureWorkspace(cfg, m, input, true)
            == Done(m.(runtime := Runtime(Replayed(cfg.repo, input.source, patch), false)))
  {
  }

  lemma TestsRun(cfg: Config, m: Machine, input: Input, o: Machine)
    requires Patching(m, RunTests) && !input.raises && RunTestsNode(cfg, Restored(m), input) == Done(o)
    ensures Advanced(cfg, m, Run(input)) == o.(node := RouteTests(cfg, o), executed := o.executed + 1)
  {
    assert RunNode(cfg, m, input) == Done(o);
  }

  lemma ReplayTests(cfg: Config, m: Machine, now: Source, patch: Patch)
    requires Patching(m, RunTests) && m.runtime == NO_RUNTIME
    requires Created(cfg.repo, now, cfg.isProtected).Some? && Replayed(cfg.repo, now, patch).Some?
    requires m.state.attempts == [FirstAttempt(patch, BaseOf(cfg.repo, now))]
    ensures var m' := Advanced(cfg, m, Run(Facing(now, patch, Some(0))));
            && m.nextId in m'.executions
            && m'.executions[m.nextId] == Execution(patch, Replayed(cfg.repo, now, patch).value, 0)
            && Patching(m', Export)
  {
    var input := Facing(now, patch, Some(0));
    ReplayBuilds(cfg, Restored(m), input, patch);
    var o := RunTestsNode(cfg, Restored(m), input);
    TestsRun(cfg, m, input, o.machine);
  }

  // ---------------------------------------------------------------------- theorems

  /** A test of the patch passed on a copy of the source, and the run goes on to export it. */
  ghost predicate TestedOn(m: Machine, repo: Repository, source: Source, patch: Patch) {
    && Patching(m, Export)
    && exists id :: id in m.executions && m.executions[id].diff == patch && m.executions[id].exitCode == 0
         && Replayed(repo, source, patch) == Some(m.executions[id].workspace)
  }

  /** A patch was drafted on a copy of `before`, and its test then passed on a copy of `now`. */
  ghost predicate TestedElsewhere(cfg: Config, steps: seq<Step>, before: Source, now: Source, patch: Patch) {
    && |steps| >= 2
    && (var drafted := History(cfg, Start(), steps[..|steps| - 2]);
        && drafted.runtime.workspace == Replayed(cfg.repo, before, patch)
        && drafted.state.attempts == [FirstAttempt(patch, BaseOf(cfg.repo, before))])
    && TestedOn(History(cfg, Start(), steps), cfg.repo, now, patch)
  }

  lemma DraftedOn(cfg: Config, steps: seq<Step>, before: Source, patch: Patch) returns (longer: seq<Step>)
    requires Patching(History(cfg, Start(), steps), CreateSandbox) && cfg.maxPatches >= 1
    requires History(cfg, Start(), steps).state.attempts == []
    requires Created(cfg.repo, before, cfg.isProtected).Some? && Replayed(cfg.repo, before, patch).Some?
    ensures var m := History(cfg, Start(), longer);
            && Patching(m, RunTests) && m.runtime.workspace == Replayed(cfg.repo, before, patch)
            && m.state.attempts == [FirstAttempt(patch, BaseOf(cfg.repo, before))]
  {
    SandboxMade(cfg, History(cfg, Start(), steps), before, patch);
    longer := Extend(cfg, steps, Run(Facing(before, patch, None)));
    FirstDraft(cfg, History(cfg, Start(), longer), before, patch);
    longer := Extend(cfg, longer, Run(Facing(before, patch, None)));
  }

  lemma RecoveredOn(cfg: Config, drafted: seq<Step>, now: Source, patch: Patch) returns (steps: seq<Step>)
    requires var m := History(cfg, Start(), drafted);
             Patching(m, RunTests) && m.state.attempts == [FirstAttempt(patch, BaseOf(cfg.repo, now))]
    requires Created(cfg.repo, now, cfg.isProtected).Some? && Replayed(cfg.repo, now, patch).Some?
    ensures |steps| >= 2 && steps[..|steps| - 2] == drafted
    ensures TestedOn(History(cfg, Start(), steps), cfg.repo, now, patch)
  {
    DiesBeforeTests(cfg, History(cfg, Start(), drafted));
    var died := Extend(cfg, drafted, Die(Say([], [], BAD).(raises := true)));
    var m := History(cfg, Start(), died);
    ReplayTests(cfg, m, now, patch);
    steps := Extend(cfg, died, Run(Facing(now, patch, Some(0))));
    assert steps[..|steps| - 2] == drafted;
    assert m.nextId in History(cfg, Start(), steps).executions;
  }

  /**
    Every change of the source that leaves the recorded base as it is goes unnoticed, in a
    history from the start: a root cause is verified, the patch is drafted on a copy of one
    source, the process dies, and the recovered run tests it on a copy of the other and goes
    on to export it.
  */
  lemma ReplayGoesAhead(cfg: Config, before: Source, now: Source, patch: Patch) returns (steps: seq<Step>)
    requires !cfg.direct && !cfg.investigationOnly && cfg.maxSteps >= 4 && cfg.maxToolCalls >= 3
             && cfg.maxPatches >= 1
    requires Created(cfg.repo, before, cfg.isProtected).Some? && Created(cfg.repo, now, cfg.isProtected).Some?
    requires Replayed(cfg.repo, before, patch).Some? && Replayed(cfg.repo, now, patch).Some?
    requires BaseOf(cfg.repo, before) == BaseOf(cfg.repo, now)
    ensures TestedElsewhere(cfg, steps, before, now, patch)
  {
    var first := RootCauseFound(cfg);
    var drafted := DraftedOn(cfg, first, before, patch);
    steps := RecoveredOn(cfg, drafted, now, patch);
  }

  const EDIT := SimpleReplace([Edit("app.py", "x", "z")])

  lemma EditApplies(files: Files)
    requires "app.py" in files && files["app.py"] == "x"
    ensures Apply(files, EDIT).Some?
  {
    var after := files["app.py" := "z"];
    assert "x"[0..1] == "x" && OccursAt("x", "x", 0);
    assert FirstAt("x", "x", 0) == Some(0);
    assert "x"[..0] + "z" + "x"[1..] == "z";
    assert ReplaceFirst("x", "x", "z") == Some("z");
    assert EDIT.edits[1..] == [];
    assert ApplyEdits(files, EDIT.edits) == Some(after);
    assert ChangedPaths(files, after) == {"app.py"} == DeclaredPaths(EDIT);
  }

  /** One such change: a source without Git gains a file between attempt and recovery. */
  lemma ReplayMissesAChange(cfg: Config) returns (before: Source, now: Source, steps: seq<Step>)
    requires !cfg.direct && !cfg.investigationOnly && cfg.maxSteps >= 4 && cfg.maxToolCalls >= 3
             && cfg.maxPatches >= 1
    requires "app.py" !in cfg.repo.excluded && "new.py" !in cfg.repo.excluded
    ensures Copied(cfg.repo, before).origin != Copied(cfg.repo, now).origin
    ensures TestedElsewhere(cfg, steps, before, now, EDIT)
  {
    before, now := NoGit(map["app.py" := "x"]), NoGit(map["app.py" := "x", "new.py" := "y"]);
    assert "new.py" in Copied(cfg.repo, now).origin && "new.py" !in Copied(cfg.repo, before).origin;
    EditApplies(Copied(cfg.repo, before).origin);
    EditApplies(Copied(cfg.repo, now).origin);
    steps := ReplayGoesAhead(cfg, before, now, EDIT);
  }
}
