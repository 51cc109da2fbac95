/** Where tested content comes from: every workspace is a copy of its source, and what its recorded base says of it. */
module WorkflowSources {
  import opened Options
  import opened RunStatus
  import opened Patches
  import opened Artifacts
  import opened Sandbox
  import opened Workflow
  import WorkflowPatches

  // -------------------------------------------------------------------- recovery

  /**
    A recovered patch is replayed exactly when the source's own commit, or its lack of one,
    is what was recorded, and the patch still applies to the new copy.
  */
  lemma ReplayAccepts(cfg: Config, m: Machine, input: Input)
    requires m.state.root.Some? && m.state.status == Running && m.runtime.workspace.None?
    requires m.state.attempts != [] && Last(m.state.attempts).diff.Some?
    requires Created(cfg.repo, input.source, cfg.isProtected).Some?
    ensures var w, a := Copied(cfg.repo, input.source), Last(m.state.attempts);
            EnsureWorkspace(cfg, m, input, true).Done? <==>
              && Apply(w.origin, a.diff.value).Some?
              && (match a.base
                  case None => false
                  case Some(Commit(sha)) => Clean(cfg.repo, input.source) && input.source.sha == sha
                  case Some(Unversioned) => !Clean(cfg.repo, input.source))
  {
  }

  /** Two copies have the same content at a path. */
  predicate SameAt(repo: Repository, before: Source, now: Source, p: Path) {
    Content(Copied(repo, before).origin, p) == Content(Copied(repo, now).origin, p)
  }

  /**
    What a replay notices, over both kinds of base: after a versioned one, an accepted copy
    can differ from the recorded one only at ignored files; after an unversioned one, any
    other unversioned source whatsoever is accepted.
  */
  lemma ReplayNotices(cfg: Config, m: Machine, input: Input, before: Source)
    requires m.state.root.Some? && m.state.status == Running && m.runtime.workspace.None?
    requires m.state.attempts != [] && Last(m.state.attempts).diff.Some?
    requires Last(m.state.attempts).base == Some(BaseOf(cfg.repo, before))
    requires Created(cfg.repo, input.source, cfg.isProtected).Some?
    requires Apply(Copied(cfg.repo, input.source).origin, Last(m.state.attempts).diff.value).Some?
    ensures var accepted := EnsureWorkspace(cfg, m, input, true).Done?;
            if Clean(cfg.repo, before)
            then accepted <==> Clean(cfg.repo, input.source) && input.source.sha == before.sha
            else accepted <==> !Clean(cfg.repo, input.source)
    ensures Clean(cfg.repo, before) && EnsureWorkspace(cfg, m, input, true).Done? ==>
              forall p :: p !in before.ignored && p !in input.source.ignored ==>
                SameAt(cfg.repo, before, input.source, p)
  {
    ReplayAccepts(cfg, m, input);
    if Clean(cfg.repo, before) && EnsureWorkspace(cfg, m, input, true).Done? {
      RecordedCommitMeans(cfg.repo, before);
      RecordedCommitMeans(cfg.repo, input.source);
      forall p | p !in before.ignored && p !in input.source.ignored
        ensures SameAt(cfg.repo, before, input.source, p)
      {
      }
    }
  }

  // --------------------------------------------------- workspaces and executions

  ghost predicate Inv(cfg: Config, m: Machine) {
    && (m.runtime.workspace.Some? ==> Faithful(cfg.repo, m.runtime.workspace.value))
    && (forall id :: id in m.executions ==> Faithful(cfg.repo, m.executions[id].workspace))
  }

  lemma EnsureFaithful(cfg: Config, m: Machine, input: Input, replay: bool)
    requires Inv(cfg, m)
    ensures Inv(cfg, EnsureWorkspace(cfg, m, input, replay).machine)
  {
  }

  lemma DraftFaithful(cfg: Config, m: Machine, input: Input)
    requires Inv(cfg, m)
    ensures Inv(cfg, DraftPatch(cfg, m, input).machine)
  {
  }

  lemma GenerateFaithful(cfg: Config, m: Machine, input: Input)
    requires Inv(cfg, m)
    ensures Inv(cfg, GenerateNode(cfg, m, input).machine)
  {
    var m0 := if m.state.attempts != [] then m.(runtime := NO_RUNTIME) else m;
    EnsureFaithful(cfg, m0, input, false);
    var ensured := EnsureWorkspace(cfg, m0, input, false);
    if ensured.Done? {
      DraftFaithful(cfg, ensured.machine, input);
    }
  }

  lemma TestsFaithful(cfg: Config, m: Machine, input: Input)
    requires Inv(cfg, m)
    ensures Inv(cfg, RunTestsNode(cfg, m, input).machine)
  {
    EnsureFaithful(cfg, m, input, true);
  }

  lemma ExportFaithful(cfg: Config, m: Machine, input: Input)
    requires Inv(cfg, m)
    ensures Inv(cfg, ExportNode(cfg, m, input).machine)
  {
    TestsFaithful(cfg, m, input);
  }

  predicate SameSandbox(m: Machine, m': Machine) {
    m'.runtime == m.runtime && m'.executions == m.executions
  }

  lemma VerifyKeepsSandbox(cfg: Config, m: Machine, input: Input)
    ensures SameSandbox(m, VerifyNode(cfg, m, input))
  {
  }

  /** The nodes that never look at the sandbox. */
  lemma QuietNode(cfg: Config, m: Machine, input: Input)
    requires m.node !in {CreateSandbox, Generate, RunTests, Export}
    ensures SameSandbox(m, NodeBody(cfg, m, input).machine)
  {
    if m.node == Verify {
      VerifyKeepsSandbox(cfg, m, input);
    }
  }

  lemma BodyFaithful(cfg: Config, m: Machine, input: Input)
    requires Inv(cfg, m)
    ensures Inv(cfg, NodeBody(cfg, m, input).machine)
  {
    if m.node == Generate {
      GenerateFaithful(cfg, m, input);
    } else if m.node == RunTests {
      TestsFaithful(cfg, m, input);
    } else if m.node == Export {
      ExportFaithful(cfg, m, input);
    } else if m.node != CreateSandbox {
      QuietNode(cfg, m, input);
    }
  }

  lemma NodeFaithful(cfg: Config, m: Machine, input: Input)
    requires Inv(cfg, m)
    ensures Inv(cfg, RunNode(cfg, m, input).machine)
  {
    if m.state.status == Running {
      BodyFaithful(cfg, Restored(m), input);
    }
  }

  lemma InvPreserved(cfg: Config, m: Machine, s: Step)
    requires Inv(cfg, m)
    ensures Inv(cfg, Advanced(cfg, m, s))
  {
    if s.Run? || s.Die? {
      NodeFaithful(cfg, m, s.input);
    }
  }

  lemma {:induction false} InvAlways(cfg: Config, steps: seq<Step>)
    ensures Inv(cfg, History(cfg, Start(), steps))
  {
    if steps != [] {
      InvAlways(cfg, steps[..|steps| - 1]);
      InvPreserved(cfg, History(cfg, Start(), steps[..|steps| - 1]), steps[|steps| - 1]);
    }
  }

  /** What an execution shows: one patch on one copy, and what the recorded base says of that copy. */
  ghost predicate TestedFromBase(cfg: Config, e: Execution) {
    var w := e.workspace;
    && w.origin == Kept(cfg.repo, Everything(w.source)) && w.base == BaseOf(cfg.repo, w.source)
    && Apply(w.origin, e.diff) == Some(w.files)
    && (forall p :: p in DeclaredPaths(e.diff) <==> Content(w.origin, p) != Content(w.files, p))
    && (w.base.Commit? ==>
          var tree := Kept(cfg.repo, TreeAt(cfg.repo, w.base.sha));
          && (forall p :: p in tree ==> p in w.origin && w.origin[p] == tree[p])
          && (w.origin == tree <==> !CopiesIgnored(cfg.repo, w.source)))
  }

  /**
    Each candidate is tested from the base. In every history, across retries, crashes and
    rebuilt workspaces, every test execution ran on the copied source with exactly its own
    patch: nothing of an earlier attempt, files outside the declared paths as they were,
    every declared file changed. With a recorded commit, the copy holds that commit's
    content at each of its kept paths, and it is the commit's tree if and only if no
    ignored file was copied along.
  */
  lemma CandidateTestedFromBase(cfg: Config, steps: seq<Step>, id: TestId)
    requires id in History(cfg, Start(), steps).executions
    ensures TestedFromBase(cfg, History(cfg, Start(), steps).executions[id])
  {
    InvAlways(cfg, steps);
    WorkflowPatches.TestedWithOnePatch(cfg, steps, id);
    CopyAndPatch(cfg, History(cfg, Start(), steps).executions[id]);
  }

  lemma CopyAndPatch(cfg: Config, e: Execution)
    requires Faithful(cfg.repo, e.workspace) && Patched(e.workspace, e.diff)
    ensures TestedFromBase(cfg, e)
  {
    var w := e.workspace;
    if w.base.Commit? {
      RecordedCommitMeans(cfg.repo, w.source);
    }
    forall p
      ensures p in DeclaredPaths(e.diff) <==> Content(w.origin, p) != Content(w.files, p)
    {
      ApplyTouchesExactlyDeclared(w.origin, e.diff, p);
    }
  }
}
