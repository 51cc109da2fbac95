/**
  What is tested is the base with one patch, what is exported was tested, and what is
  saved as WAITING_APPROVAL is accepted by the approval's own validation.
*/
module WorkflowPatches {
  import opened Options
  import opened RunStatus
  import opened Patches
  import opened Artifacts
  import Evidence
  import Gateway
  import opened Sandbox
  import opened Workflow
  import WorkflowShape

  type Executions = map<TestId, Execution>

  // ---------------------------------------------------------------- invariants

  /** The tests ran on the base with exactly this patch. */
  predicate ExecutionOk(e: Execution) {
    Patched(e.workspace, e.diff)
  }

  predicate Recorded(a: Attempt, e: Execution) {
    a.diff == Some(e.diff) && a.base == Some(e.workspace.base) && a.exitCode == e.exitCode
    && (a.progress == TestsPassed <==> e.exitCode == 0)
  }

  predicate AttemptOk(a: Attempt, ex: Executions) {
    && (a.diff.Some? ==> a.base.Some?)
    && (a.test.Some? ==> a.test.value in ex && Recorded(a, ex[a.test.value]))
  }

  /** Each attempt tells the truth about its test, and all of them share one base. */
  predicate AttemptsOk(attempts: seq<Attempt>, ex: Executions) {
    forall i :: 0 <= i < |attempts| ==>
      AttemptOk(attempts[i], ex) && (attempts[i].diff.Some? ==> attempts[i].base == attempts[0].base)
  }

  function RowOf(cfg: Config, e: Execution): TestRow {
    TestRow(cfg.run, e.exitCode == 0, e.exitCode, HashPatch(e.diff), e.workspace.base)
  }

  predicate ArtifactOk(cfg: Config, id: ArtifactId, a: Artifact, ex: Executions) {
    && a.id == id && a.run == cfg.run && a.immutable && a.hash == HashPatch(a.diff)
    && a.test in ex && ex[a.test].diff == a.diff && ex[a.test].workspace.base == a.base && ex[a.test].exitCode == 0
  }

  ghost predicate DbOk(cfg: Config, ex: Executions, t: Tables, nextId: nat) {
    && (forall id :: id in ex ==> id < nextId && ExecutionOk(ex[id]))
    && (forall id :: id in t.tests ==> id in ex && t.tests[id] == RowOf(cfg, ex[id]))
    && (forall id :: id in t.artifacts ==> id < nextId && ArtifactOk(cfg, id, t.artifacts[id], ex))
  }

  /** The workspace holds the last attempt's patch, applied to its base. */
  ghost predicate Candidate(w: Workspace, attempts: seq<Attempt>) {
    && attempts != [] && Last(attempts).diff.Some? && Last(attempts).base == Some(w.base)
    && Patched(w, Last(attempts).diff.value)
  }

  predicate LastPassed(s: State, ex: Executions) {
    && s.attempts != [] && s.test.Some? && Last(s.attempts).test == s.test
    && s.test.value in ex && ex[s.test.value].exitCode == 0
  }

  ghost predicate RuntimeOk(node: Node, s: State, ex: Executions, r: Runtime) {
    r.workspace.Some? ==>
      && (node == Generate && s.attempts == [] ==> Pristine(r.workspace.value))
      && (node in {RunTests, Export} ==> Candidate(r.workspace.value, s.attempts))
      && (node == Export ==> LastPassed(s, ex))
  }

  /** The artifact named in the result is the last attempt: its patch, its base, its passed test. */
  predicate Named(s: State, t: Tables) {
    && s.artifact.Some? && s.artifact.value in t.artifacts && s.attempts != []
    && var a := t.artifacts[s.artifact.value];
       Last(s.attempts).diff == Some(a.diff) && Last(s.attempts).base == Some(a.base)
       && Last(s.attempts).test == Some(a.test)
  }

  ghost predicate CoreOk(cfg: Config, node: Node, m: Machine) {
    && AttemptsOk(m.state.attempts, m.executions)
    && DbOk(cfg, m.executions, m.tables, m.nextId)
    && RuntimeOk(node, m.state, m.executions, m.runtime)
    && (m.state.status == WaitingApproval ==> Named(m.state, m.tables))
  }

  predicate TestsSaved(attempts: seq<Attempt>, t: Tables) {
    forall i :: 0 <= i < |attempts| && attempts[i].test.Some? ==> attempts[i].test.value in t.tests
  }

  ghost predicate SavedOk(m: Machine) {
    m.saved.Some? ==>
      && m.node == Stop && m.saved.value == Saved(m.state.status, m.state.artifact)
      && TestsSaved(m.state.attempts, m.tables)
  }

  ghost predicate Inv(cfg: Config, m: Machine) {
    && WorkflowShape.Shape(cfg, m.node, m.state)
    && CoreOk(cfg, m.node, m)
    && SavedOk(m)
  }

  // ------------------------------------------------------------------ workspaces

  /** A rebuilt workspace is untouched, or holds exactly the last patch after a replay. */
  lemma EnsureWorkspaceHolds(cfg: Config, m: Machine, input: Input, replay: bool)
    requires m.state.root.Some? && m.state.status == Running
    requires m.runtime.workspace.Some? ==>
               if replay
               then Candidate(m.runtime.workspace.value, m.state.attempts) else Pristine(m.runtime.workspace.value)
    requires replay ==> m.state.attempts != [] && Last(m.state.attempts).diff.Some?
    ensures var o := EnsureWorkspace(cfg, m, input, replay);
            o.Done? && o.machine.state.status == Running && o.machine.runtime.workspace.Some? ==>
              var w := o.machine.runtime.workspace.value;
              if replay then Candidate(w, m.state.attempts) else Pristine(w)
  {
  }

  // ------------------------------------------------------------------------ nodes

  lemma Untested(attempts: seq<Attempt>, a: Attempt, ex: Executions)
    requires AttemptsOk(attempts, ex) && a.test.None?
    requires a.diff.Some? ==> a.base.Some? && (attempts != [] ==> a.base == attempts[0].base)
    ensures AttemptsOk(attempts + [a], ex)
  {
    var all := attempts + [a];
    forall i | 0 <= i < |all|
      ensures AttemptOk(all[i], ex) && (all[i].diff.Some? ==> all[i].base == all[0].base)
    {
      if i < |attempts| {
        assert all[i] == attempts[i];
      }
    }
  }

  /** A generated patch is recorded with the base it was applied to, and nothing else changes. */
  predicate Generated(m: Machine, m': Machine) {
    && Unrecorded(m, m') && m'.state.status != WaitingApproval
    && (m'.state.attempts == m.state.attempts
        || (m'.state.attempts != [] && m'.state.attempts == m.state.attempts + [Last(m'.state.attempts)]
            && Fresh(m, m', Last(m'.state.attempts))))
  }

  predicate Fresh(m: Machine, m': Machine, a: Attempt) {
    && a.test.None?
    && (a.diff.Some? ==> a.base.Some? && (m.state.attempts != [] ==> a.base == m.state.attempts[0].base))
    && (m'.state.status == Running && a.progress == Applied ==>
          a.diff.Some? && m'.runtime.workspace.Some? && a.base == Some(m'.runtime.workspace.value.base)
          && Patched(m'.runtime.workspace.value, a.diff.value))
  }

  lemma DraftRecords(cfg: Config, m: Machine, input: Input)
    requires m.state.status != WaitingApproval
    requires m.runtime.workspace.Some? && m.state.status == Running ==> Pristine(m.runtime.workspace.value)
    ensures var o := DraftPatch(cfg, m, input);
            o.Done? ==>
              && Generated(m, o.machine)
              && (o.machine.state.status == Running ==> |o.machine.state.attempts| > |m.state.attempts|)
  {
  }

  lemma GenerateRecords(cfg: Config, m: Machine, input: Input)
    requires WorkflowShape.Shape(cfg, Generate, m.state)
    requires m.runtime.workspace.Some? && m.state.attempts == [] ==> Pristine(m.runtime.workspace.value)
    ensures var o := GenerateNode(cfg, m, input);
            o.Done? ==>
              && Generated(m, o.machine)
              && (o.machine.state.status == Running ==> |o.machine.state.attempts| > |m.state.attempts|)
  {
    var m0 := if m.state.attempts != [] then m.(runtime := NO_RUNTIME) else m;
    WorkflowShape.EnsureKeeps(cfg, m0, input, false);
    EnsureWorkspaceHolds(cfg, m0, input, false);
    var ensured := EnsureWorkspace(cfg, m0, input, false);
    if ensured.Done? {
      DraftRecords(cfg, ensured.machine, input);
    }
  }

  lemma GenerateKeeps(cfg: Config, m: Machine, input: Input)
    requires WorkflowShape.Shape(cfg, Generate, m.state) && CoreOk(cfg, Generate, m)
    ensures var o := GenerateNode(cfg, m, input);
            o.Done? ==> CoreOk(cfg, Route(cfg, Generate, o.machine), o.machine)
  {
    GenerateRecords(cfg, m, input);
    var o := GenerateNode(cfg, m, input);
    if o.Done? {
      GeneratedOk(cfg, m, o.machine);
    }
  }

  lemma GeneratedOk(cfg: Config, m: Machine, m': Machine)
    requires CoreOk(cfg, Generate, m) && Generated(m, m')
    requires m'.state.status == Running ==> |m'.state.attempts| > |m.state.attempts|
    ensures CoreOk(cfg, Route(cfg, Generate, m'), m')
  {
    if |m'.state.attempts| > |m.state.attempts| {
      Untested(m.state.attempts, Last(m'.state.attempts), m.executions);
    }
  }

  lemma StillTrue(attempts: seq<Attempt>, ex: Executions, id: nat, e: Execution)
    requires AttemptsOk(attempts, ex) && id !in ex
    ensures AttemptsOk(attempts, ex[id := e])
  {
    forall i | 0 <= i < |attempts|
      ensures AttemptOk(attempts[i], ex[id := e]) && (attempts[i].diff.Some? ==> attempts[i].base == attempts[0].base)
    {
      assert AttemptOk(attempts[i], ex);
    }
  }

  /** A new execution under a new id disturbs nothing recorded so far. */
  lemma Executed(cfg: Config, ex: Executions, t: Tables, id: nat, e: Execution)
    requires DbOk(cfg, ex, t, id) && ExecutionOk(e)
    ensures DbOk(cfg, ex[id := e], t, id + 1)
  {
    forall k | k in t.artifacts
      ensures k < id + 1 && ArtifactOk(cfg, k, t.artifacts[k], ex[id := e])
    {
      StillProven(cfg, k, t.artifacts[k], ex, id, e);
    }
  }

  lemma StillProven(cfg: Config, k: ArtifactId, a: Artifact, ex: Executions, id: nat, e: Execution)
    requires ArtifactOk(cfg, k, a, ex) && id !in ex
    ensures ArtifactOk(cfg, k, a, ex[id := e])
  {
  }

  lemma Retested(attempts: seq<Attempt>, a: Attempt, ex: Executions)
    requires attempts != [] && AttemptsOk(attempts, ex) && AttemptOk(a, ex)
    requires a.diff.Some? && Last(attempts).diff == a.diff && Last(attempts).base == a.base
    ensures AttemptsOk(attempts[..|attempts| - 1] + [a], ex)
  {
    var all := attempts[..|attempts| - 1] + [a];
    forall i | 0 <= i < |all|
      ensures AttemptOk(all[i], ex) && (all[i].diff.Some? ==> all[i].base == all[0].base)
    {
      assert AttemptOk(attempts[i], ex) && (attempts[i].diff.Some? ==> attempts[i].base == attempts[0].base);
      assert all[0].base == attempts[0].base;
    }
  }

  /** The state a test run leaves behind, whether its verdict is PASSED or FAILED. */
  ghost predicate TestedOk(cfg: Config, m: Machine) {
    && AttemptsOk(m.state.attempts, m.executions)
    && DbOk(cfg, m.executions, m.tables, m.nextId)
    && (m.state.status == Running && m.runtime.workspace.Some? ==>
          && Candidate(m.runtime.workspace.value, m.state.attempts)
          && (m.runtime.testOk ==> LastPassed(m.state, m.executions)))
    && m.state.status in {Running, Failed}
  }

  /** A verdict was reached and recorded, on the workspace `w`. */
  ghost predicate Verdict(m: Machine, m': Machine, w: Workspace, e: Execution) {
    && m'.executions == m.executions[m.nextId := e] && m'.tables == m.tables && m'.nextId == m.nextId + 1
    && m'.runtime == Runtime(Some(w), e.exitCode == 0) && e.workspace == w
    && m.state.attempts != [] && Last(m.state.attempts).diff == Some(e.diff) && m'.state.attempts != []
    && m'.state.attempts == m.state.attempts[..|m.state.attempts| - 1] + [Last(m'.state.attempts)]
    && Recorded(Last(m'.state.attempts), e) && Last(m'.state.attempts).test == Some(m.nextId) == m'.state.test
    && m'.state.status == Running
  }

  lemma TestsVerdict(cfg: Config, m: Machine, input: Input)
    requires m.state.root.Some? && m.state.status == Running
    requires m.state.attempts != [] && Last(m.state.attempts).diff.Some?
    requires m.runtime.workspace.Some? ==> Candidate(m.runtime.workspace.value, m.state.attempts)
    ensures var o := RunTestsNode(cfg, m, input);
            if o.Done? && o.machine.state.status == Running
            then o.machine.runtime.workspace.Some? && Candidate(o.machine.runtime.workspace.value, m.state.attempts)
                 && Verdict(m, o.machine, o.machine.runtime.workspace.value,
                            o.machine.executions[m.nextId])
            else Unrecorded(m, o.machine)
                 && (o.Done? ==> o.machine.state.status == Failed && o.machine.state.attempts == m.state.attempts)
  {
    WorkflowShape.EnsureKeeps(cfg, m, input, true);
    EnsureWorkspaceHolds(cfg, m, input, true);
  }

  lemma VerdictOk(cfg: Config, m: Machine, m': Machine, w: Workspace, e: Execution)
    requires m.state.attempts != [] && Last(m.state.attempts).diff.Some? && Candidate(w, m.state.attempts)
    requires AttemptsOk(m.state.attempts, m.executions) && DbOk(cfg, m.executions, m.tables, m.nextId)
    requires Verdict(m, m', w, e)
    ensures TestedOk(cfg, m')
  {
    StillTrue(m.state.attempts, m.executions, m.nextId, e);
    Executed(cfg, m.executions, m.tables, m.nextId, e);
    Retested(m.state.attempts, Last(m'.state.attempts), m'.executions);
  }

  lemma TestsKeep(cfg: Config, m: Machine, input: Input)
    requires m.state.root.Some? && m.state.status == Running
    requires m.state.attempts != [] && Last(m.state.attempts).diff.Some?
    requires AttemptsOk(m.state.attempts, m.executions) && DbOk(cfg, m.executions, m.tables, m.nextId)
    requires m.runtime.workspace.Some? ==> Candidate(m.runtime.workspace.value, m.state.attempts)
    ensures var o := RunTestsNode(cfg, m, input);
            if o.Done? then TestedOk(cfg, o.machine) else Unrecorded(m, o.machine)
  {
    TestsVerdict(cfg, m, input);
    var m' := RunTestsNode(cfg, m, input).machine;
    if RunTestsNode(cfg, m, input).Done? && m'.state.status == Running {
      VerdictOk(cfg, m, m', m'.runtime.workspace.value, m'.executions[m.nextId]);
    }
  }

  /** Nothing was recorded. */
  predicate Unrecorded(m: Machine, m': Machine) {
    m'.executions == m.executions && m'.tables == m.tables && m'.nextId == m.nextId
  }

  /** The row that the export adds under a new id. */
  lemma RowAdded(cfg: Config, ex: Executions, t: Tables, id: nat, row: Artifact)
    requires DbOk(cfg, ex, t, id) && ArtifactOk(cfg, id, row, ex)
    ensures DbOk(cfg, ex, t.(artifacts := t.artifacts[id := row]), id + 1)
  {
  }

  lemma PersistKeeps(cfg: Config, m: Machine, w: Workspace)
    requires AttemptsOk(m.state.attempts, m.executions) && DbOk(cfg, m.executions, m.tables, m.nextId)
    requires Candidate(w, m.state.attempts) && LastPassed(m.state, m.executions)
    ensures var m' := PersistArtifact(cfg, m, w);
            && DbOk(cfg, m'.executions, m'.tables, m'.nextId) && Named(m'.state, m'.tables)
            && m'.state.attempts == m.state.attempts && m'.executions == m.executions
  {
    var last, test := Last(m.state.attempts), m.state.test.value;
    assert AttemptOk(last, m.executions);
    var row := Artifact(m.nextId, cfg.run, w.base, last.diff.value, HashPatch(last.diff.value), test, true);
    assert ArtifactOk(cfg, m.nextId, row, m.executions);
    RowAdded(cfg, m.executions, m.tables, m.nextId, row);
    MoreIds(cfg, m.executions, m.tables, m.nextId, m.nextId + 1);
  }

  lemma ExportKeeps(cfg: Config, m: Machine, input: Input)
    requires WorkflowShape.Shape(cfg, Export, m.state) && CoreOk(cfg, Export, m)
    ensures var o := ExportNode(cfg, m, input);
            && (o.Done? ==> CoreOk(cfg, Wait, o.machine))
            && (o.Raised? ==> Unrecorded(m, o.machine))
  {
    var tested := if m.runtime.workspace.Some? then Done(m) else RunTestsNode(cfg, m, input);
    if m.runtime.workspace.None? {
      TestsKeep(cfg, m, input);
      WorkflowShape.TestsOutcome(cfg, m, input);
    }
    if tested.Done? {
      var m1 := tested.machine;
      if m1.state.status == Running && (m.runtime.workspace.Some? || m1.runtime.testOk) && m1.runtime.workspace.Some? {
        PersistKeeps(cfg, m1, m1.runtime.workspace.value);
      }
    }
  }

  // ----------------------------------------------------------------- preservation

  lemma MoreIds(cfg: Config, ex: Executions, t: Tables, lo: nat, hi: nat)
    requires DbOk(cfg, ex, t, lo) && lo <= hi
    ensures DbOk(cfg, ex, t, hi)
  {
  }

  lemma {:induction false} CollectIds(cfg: Config, k: Collecting, actions: seq<Action>)
    ensures CollectLoop(cfg, k, actions).nextId >= k.nextId
    decreases |actions|
  {
    if k.stepCount < cfg.maxSteps && actions != [] {
      var (next, more) := CollectOne(cfg, k, actions[0]);
      if more {
        CollectIds(cfg, next, actions[1..]);
      }
    }
  }

  /** Investigating touches neither attempts nor artifacts nor workspaces. */
  predicate Investigated(m: Machine, m': Machine) {
    && m'.state.attempts == m.state.attempts && m'.state.status != WaitingApproval
    && m'.executions == m.executions && m'.tables == m.tables && m'.nextId >= m.nextId
  }

  lemma CollectFrame(cfg: Config, m: Machine, input: Input)
    requires m.state.status == Running
    ensures Investigated(m, CollectNode(cfg, m, input))
  {
    var s := m.state;
    var k := Collecting(s.calls, s.evidence, s.status, m.toolCalls, m.stepCount, m.nextId);
    CollectIds(cfg, k, input.actions);
    WorkflowShape.CollectKeepsStatusOrStops(cfg, k, input.actions);
  }

  lemma FormFrame(cfg: Config, m: Machine, input: Input)
    requires m.state.status == Running
    ensures Investigated(m, FormNode(cfg, m, input))
  {
  }

  lemma JudgeFrame(cfg: Config, m: Machine, input: Input)
    requires m.state.hypotheses != [] && m.state.status == Running
    ensures Investigated(m, JudgeHypothesis(cfg, m, input))
  {
  }

  lemma VerifyFrame(cfg: Config, m: Machine, input: Input)
    requires m.state.status == Running
    ensures Investigated(m, VerifyNode(cfg, m, input))
  {
    if m.state.hypotheses != [] {
      var r := Gateway.CallResult(cfg.maxToolCalls, m.toolCalls, input.tool);
      var c := RecordOf(input.tool, r, m.nextId);
      var calls := m.state.calls + [c];
      var evidence :=
        Evidence.ValidEvidence(m.state.evidence + [Observation(cfg, c, m.nextId + 1)], calls, cfg.run);
      JudgeFrame(cfg, m.(toolCalls := m.toolCalls + r.attempts, nextId := m.nextId + 2,
                         state := m.state.(calls := calls, evidence := evidence)), input);
    }
  }

  lemma InvestigationFrame(cfg: Config, m: Machine, input: Input)
    requires WorkflowShape.Shape(cfg, m.node, m.state) && WorkflowShape.Investigating(m.node)
    ensures Investigated(m, RunNode(cfg, m, input).machine)
  {
    var r := Restored(m);
    match m.node
    case Collect => CollectFrame(cfg, r, input);
    case Form => FormFrame(cfg, r, input);
    case Verify => VerifyFrame(cfg, r, input);
    case _ =>
  }

  /** The database after one node, completed or not. */
  lemma NodeDb(cfg: Config, m: Machine, input: Input)
    requires WorkflowShape.Shape(cfg, m.node, m.state) && CoreOk(cfg, m.node, m) && m.node != Stop
    ensures var o := RunNode(cfg, m, input);
            && DbOk(cfg, o.machine.executions, o.machine.tables, o.machine.nextId)
            && (o.Done? ==> CoreOk(cfg, Route(cfg, m.node, o.machine), o.machine))
  {
    if WorkflowShape.Investigating(m.node) {
      InvestigationFrame(cfg, m, input);
      MoreIds(cfg, m.executions, m.tables, m.nextId, RunNode(cfg, m, input).machine.nextId);
    } else if m.state.status == Running && !input.raises {
      PatchNodeDb(cfg, m, input);
    }
  }

  lemma GenerateDb(cfg: Config, m: Machine, input: Input)
    requires WorkflowShape.Shape(cfg, Generate, m.state) && CoreOk(cfg, Generate, m)
    ensures var o := GenerateNode(cfg, m, input);
            && DbOk(cfg, o.machine.executions, o.machine.tables, o.machine.nextId)
            && (o.Done? ==> CoreOk(cfg, Route(cfg, Generate, o.machine), o.machine))
  {
    GenerateKeeps(cfg, m, input);
    GenerateRecordsNothing(cfg, m, input);
  }

  lemma PatchNodeDb(cfg: Config, m: Machine, input: Input)
    requires WorkflowShape.Shape(cfg, m.node, m.state) && CoreOk(cfg, m.node, m)
    requires m.node in {CreateSandbox, Generate, RunTests, Reflect, Export, Human} && m.state.status == Running
    ensures var o := NodeBody(cfg, Restored(m), input);
            && DbOk(cfg, o.machine.executions, o.machine.tables, o.machine.nextId)
            && (o.Done? ==> CoreOk(cfg, Route(cfg, m.node, o.machine), o.machine))
  {
    var r := Restored(m);
    if !input.raises {
      match m.node
      case CreateSandbox =>
      case Generate => GenerateDb(cfg, r, input);
      case RunTests => TestsKeep(cfg, r, input);
      case Export => ExportKeeps(cfg, r, input);
      case _ =>
    }
  }

  lemma GenerateRecordsNothing(cfg: Config, m: Machine, input: Input)
    ensures Unrecorded(m, GenerateNode(cfg, m, input).machine)
  {
    EnsureRecordsNothing(cfg, if m.state.attempts != [] then m.(runtime := NO_RUNTIME) else m, input, false);
  }

  lemma RunTestsGrows(cfg: Config, m: Machine, input: Input)
    requires m.nextId !in m.executions
    ensures var m' := RunTestsNode(cfg, m, input).machine;
            Grows(m, m') && m'.tables == m.tables && m'.nextId >= m.nextId
  {
    EnsureRecordsNothing(cfg, m, input, true);
  }

  lemma PersistGrows(cfg: Config, m: Machine, w: Workspace)
    requires m.state.attempts != [] && Last(m.state.attempts).diff.Some? && m.state.test.Some?
    requires forall id :: id in m.tables.artifacts ==> id < m.nextId
    ensures Grows(m, PersistArtifact(cfg, m, w))
  {
  }

  lemma ExportGrows(cfg: Config, m: Machine, input: Input)
    requires DbOk(cfg, m.executions, m.tables, m.nextId)
    ensures Grows(m, ExportNode(cfg, m, input).machine)
  {
    RunTestsGrows(cfg, m, input);
    var tested := if m.runtime.workspace.Some? then Done(m) else RunTestsNode(cfg, m, input);
    var m1 := tested.machine;
    if m1.state.attempts != [] && Last(m1.state.attempts).diff.Some? && m1.state.test.Some?
       && m1.runtime.workspace.Some? {
      PersistGrows(cfg, m1, m1.runtime.workspace.value);
    }
  }

  predicate SameDb(m: Machine, m': Machine) {
    m'.executions == m.executions && m'.tables == m.tables
  }

  lemma VerifyRecordsNothing(cfg: Config, m: Machine, input: Input)
    ensures SameDb(m, VerifyNode(cfg, m, input))
  {
  }

  /** Only testing and exporting write to the database. */
  lemma OthersRecordNothing(cfg: Config, m: Machine, input: Input)
    requires m.node !in {RunTests, Export}
    ensures SameDb(m, NodeBody(cfg, m, input).machine)
  {
    if m.node == Generate {
      GenerateRecordsNothing(cfg, m, input);
    } else if m.node == Verify {
      VerifyRecordsNothing(cfg, m, input);
    }
  }

  lemma BodyGrows(cfg: Config, m: Machine, input: Input)
    requires DbOk(cfg, m.executions, m.tables, m.nextId)
    ensures Grows(m, NodeBody(cfg, m, input).machine)
  {
    if m.node == RunTests {
      RunTestsGrows(cfg, m, input);
    } else if m.node == Export {
      ExportGrows(cfg, m, input);
    } else {
      OthersRecordNothing(cfg, m, input);
    }
  }

  /** Everything the state refers to stays in the database, which only grows. */
  lemma NodeGrows(cfg: Config, m: Machine, input: Input)
    requires DbOk(cfg, m.executions, m.tables, m.nextId)
    ensures Grows(m, RunNode(cfg, m, input).machine)
  {
    if m.state.status == Running {
      BodyGrows(cfg, Restored(m), input);
    }
  }

  predicate Grows(m: Machine, m': Machine) {
    && (forall id :: id in m.executions ==> id in m'.executions && m'.executions[id] == m.executions[id])
    && (forall id :: id in m.tables.artifacts ==>
          id in m'.tables.artifacts && m'.tables.artifacts[id] == m.tables.artifacts[id])
    && m'.tables.tests == m.tables.tests
  }

  lemma EnsureRecordsNothing(cfg: Config, m: Machine, input: Input, replay: bool)
    ensures Unrecorded(m, EnsureWorkspace(cfg, m, input, replay).machine)
  {
  }

  lemma KeptByGrowth(s: State, m: Machine, m': Machine)
    requires AttemptsOk(s.attempts, m.executions) && Grows(m, m')
    requires s.status == WaitingApproval ==> Named(s, m.tables)
    ensures AttemptsOk(s.attempts, m'.executions)
    ensures s.status == WaitingApproval ==> Named(s, m'.tables)
  {
    forall i | 0 <= i < |s.attempts|
      ensures AttemptOk(s.attempts[i], m'.executions)
              && (s.attempts[i].diff.Some? ==> s.attempts[i].base == s.attempts[0].base)
    {
      assert AttemptOk(s.attempts[i], m.executions);
    }
  }

  lemma PrefixOk(attempts: seq<Attempt>, ex: Executions, n: nat)
    requires AttemptsOk(attempts, ex) && n <= |attempts|
    ensures AttemptsOk(attempts[..n], ex)
  {
    forall i | 0 <= i < n
      ensures AttemptOk(attempts[..n][i], ex)
              && (attempts[..n][i].diff.Some? ==> attempts[..n][i].base == attempts[..n][0].base)
    {
      assert attempts[..n][i] == attempts[i];
    }
  }

  lemma SaveTestSaves(cfg: Config, t: Tables, a: Attempt, ex: Executions, nextId: nat)
    requires AttemptOk(a, ex) && DbOk(cfg, ex, t, nextId)
    ensures var t' := SaveTest(cfg, t, a);
            && DbOk(cfg, ex, t', nextId) && t'.artifacts == t.artifacts
            && t.tests.Keys <= t'.tests.Keys && (a.test.Some? ==> a.test.value in t'.tests)
  {
  }

  lemma OneMoreSaved(attempts: seq<Attempt>, t: Tables, t': Tables)
    requires attempts != [] && TestsSaved(attempts[..|attempts| - 1], t) && t.tests.Keys <= t'.tests.Keys
    requires Last(attempts).test.Some? ==> Last(attempts).test.value in t'.tests
    ensures TestsSaved(attempts, t')
  {
    var n := |attempts| - 1;
    forall i | 0 <= i < |attempts| && attempts[i].test.Some?
      ensures attempts[i].test.value in t'.tests
    {
      assert i < n ==> attempts[..n][i] == attempts[i];
    }
  }

  lemma {:induction false} SaveTestsSaves(cfg: Config, t: Tables, attempts: seq<Attempt>, ex: Executions, nextId: nat)
    requires AttemptsOk(attempts, ex) && DbOk(cfg, ex, t, nextId)
    ensures var t' := SaveTests(cfg, t, attempts);
            && DbOk(cfg, ex, t', nextId) && t'.artifacts == t.artifacts && TestsSaved(attempts, t')
  {
    if attempts != [] {
      var n := |attempts| - 1;
      PrefixOk(attempts, ex, n);
      SaveTestsSaves(cfg, t, attempts[..n], ex, nextId);
      SaveTestSaves(cfg, SaveTests(cfg, t, attempts[..n]), attempts[n], ex, nextId);
      OneMoreSaved(attempts, SaveTests(cfg, t, attempts[..n]), SaveTests(cfg, t, attempts));
    }
  }

  lemma DieKeeps(cfg: Config, m: Machine, input: Input)
    requires Inv(cfg, m) && m.saved.None?
    ensures Inv(cfg, Advanced(cfg, m, Die(input)))
  {
    if m.node != Stop {
      NodeDb(cfg, m, input);
    }
    var m1 := RunNode(cfg, m, input).machine;
    NodeGrows(cfg, m, input);
    KeptByGrowth(m.state, m, m1);
    WorkflowShape.NodeFrame(cfg, m, input);
  }

  lemma RunKeeps(cfg: Config, m: Machine, input: Input)
    requires Inv(cfg, m) && m.saved.None? && m.node != Stop
    ensures Inv(cfg, RunStep(cfg, m, input))
  {
    WorkflowShape.RankDrops(cfg, m, input);
    NodeDb(cfg, m, input);
    WorkflowShape.NodeFrame(cfg, m, input);
  }

  lemma InvPreserved(cfg: Config, m: Machine, s: Step)
    requires Inv(cfg, m)
    ensures Inv(cfg, Advanced(cfg, m, s))
  {
    if m.saved.None? {
      match s
      case Run(input) =>
        if m.node != Stop {
          RunKeeps(cfg, m, input);
        }
      case Die(input) => DieKeeps(cfg, m, input);
      case Restart =>
      case Persist(_) => SaveTestsSaves(cfg, m.tables, m.state.attempts, m.executions, m.nextId);
    }
  }

  lemma {:induction false} InvAlways(cfg: Config, steps: seq<Step>)
    ensures Inv(cfg, History(cfg, Start(), steps))
  {
    if steps != [] {
      InvAlways(cfg, steps[..|steps| - 1]);
      InvPreserved(cfg, History(cfg, Start(), steps[..|steps| - 1]), steps[|steps| - 1]);
    }
  }

  // --------------------------------------------------------------------- theorems

  /** Every execution ran on its workspace's copy with exactly its own patch applied. */
  lemma TestedWithOnePatch(cfg: Config, steps: seq<Step>, id: TestId)
    requires id in History(cfg, Start(), steps).executions
    ensures var e := History(cfg, Start(), steps).executions[id]; Patched(e.workspace, e.diff)
  {
    InvAlways(cfg, steps);
    assert ExecutionOk(History(cfg, Start(), steps).executions[id]);
  }

  /** All patch attempts of a run share one base, and each records its own test truthfully. */
  lemma AttemptsShareOneBase(cfg: Config, steps: seq<Step>, i: nat)
    requires i < |History(cfg, Start(), steps).state.attempts|
    ensures var m := History(cfg, Start(), steps);
            && AttemptOk(m.state.attempts[i], m.executions)
            && (m.state.attempts[i].diff.Some? ==> m.state.attempts[i].base == m.state.attempts[0].base)
  {
    InvAlways(cfg, steps);
  }

  /**
    Producer meets consumer. Whenever a run is saved as WAITING_APPROVAL, the approval's
    validation accepts the artifact its result names, and that artifact is the last
    attempt: same patch, same base, and the test id of an execution that passed.
  */
  lemma ProducerMeetsConsumer(cfg: Config, steps: seq<Step>)
    requires History(cfg, Start(), steps).saved.Some?
    requires History(cfg, Start(), steps).saved.value.status == WaitingApproval
    ensures var m := History(cfg, Start(), steps);
            var found := ValidatedArtifact(m.tables, cfg.run, None, m.saved.value.artifact);
            && found.Some? && m.state.attempts != []
            && Last(m.state.attempts).diff == Some(found.value.diff)
            && Last(m.state.attempts).base == Some(found.value.base)
            && Last(m.state.attempts).test == Some(found.value.test)
            && found.value.test in m.executions && m.executions[found.value.test].exitCode == 0
            && Apply(m.executions[found.value.test].workspace.origin, found.value.diff)
               == Some(m.executions[found.value.test].workspace.files)
  {
    InvAlways(cfg, steps);
    var m := History(cfg, Start(), steps);
    var a := m.tables.artifacts[m.state.artifact.value];
    assert ExecutionOk(m.executions[a.test]);
    var last := |m.state.attempts| - 1;
    assert m.state.attempts[last].test == Some(a.test);
    assert a.test in m.tables.tests;
  }

  /** The graph never hands the worker a run that is still RUNNING. */
  lemma SavedNeverRunning(cfg: Config, steps: seq<Step>)
    requires History(cfg, Start(), steps).saved.Some?
    ensures History(cfg, Start(), steps).saved.value.status != Running
  {
    InvAlways(cfg, steps);
  }
}
