/**
  The investigation graph: eleven nodes, their conditional edges, checkpoints after
  every node, and recovery from a crash in any of them.

  `Machine` joins what the checkpoint keeps (`node`, `state`), what lives only in the
  process (`runtime`, the budget counters), and what is in the database. Decisions of
  the model, tool outcomes, the source repository and test processes are arbitrary
  inputs.
*/
module Workflow {
  import opened Options
  import opened RunStatus
  import opened Patches
  import opened Artifacts
  import Evidence
  import Gateway
  import opened Sandbox

  datatype Config = Config(
    run: RunId, maxSteps: nat, maxToolCalls: nat, maxPatches: nat,
    direct: bool, investigationOnly: bool, isProtected: bool, repo: Repository)

  datatype Node =
    | Plan | Collect | Form | Verify | CreateSandbox | Generate | RunTests | Reflect | Export | Wait | Human | Stop

  datatype Hypothesis = Open | Verified | Rejected

  datatype RootCause = RootCause(cited: seq<nat>, verified: bool)

  datatype Progress = Drafted | Applied | ApplyFailed | TestsPassed | TestsFailed

  datatype Attempt = Attempt(diff: Option<Patch>, progress: Progress, base: Option<Base>, test: Option<TestId>,
                             exitCode: int)

  /** What a checkpoint keeps; `steps`, `test` and `artifact` are fields of the `result` dict. */
  datatype State = State(
    status: Status,
    calls: seq<Evidence.Call>,
    evidence: seq<Evidence.Item>,
    hypotheses: seq<Hypothesis>,
    root: Option<RootCause>,
    attempts: seq<Attempt>,
    steps: nat,
    test: Option<TestId>,
    artifact: Option<ArtifactId>)

  /** The process-local handles: the sandbox manager's workspace and the last test verdict. */
  datatype Runtime = Runtime(workspace: Option<Workspace>, testOk: bool)

  /** What one test execution really ran on. */
  datatype Execution = Execution(diff: Patch, workspace: Workspace, exitCode: int)

  datatype Saved = Saved(status: Status, artifact: Option<ArtifactId>)

  /**
    The last three fields only record what happened since the last start: the nodes that
    completed, the steps of the collections that completed, and whether the process died
    while a rejected hypothesis had taken the step count out of the checkpoint.
  */
  datatype Machine = Machine(
    node: Node,
    state: State,
    runtime: Runtime,
    toolCalls: nat,
    stepCount: nat,
    nextId: nat,
    executions: map<TestId, Execution>,
    tables: Tables,
    saved: Option<Saved>,
    executed: nat,
    taken: int,
    forgot: bool)

  // --------------------------------------------------------------------- inputs

  /** What the model may answer when asked for the next investigation step. */
  datatype Action =
    | Proceed
    | GiveUp(toHuman: bool)
    | NoSelection
    | Foreign(tool: Gateway.Tool)
    | Use(tool: Gateway.Tool)

  datatype Input = Input(
    raises: bool,
    actions: seq<Action>,
    cited: seq<nat>,
    tool: Gateway.Tool,
    supported: bool,
    conclusion: seq<nat>,
    categoryOk: bool,
    source: Source,
    patch: Patch,
    exit: Option<int>)

  const NO_RUNTIME := Runtime(None, false)

  function StartState(): State {
    State(Running, [], [], [], None, [], 0, None, None)
  }

  // ------------------------------------------------------------------ tool calls

  function AttemptSum(calls: seq<Evidence.Call>): nat {
    if calls == [] then 0 else AttemptSum(calls[..|calls| - 1]) + calls[|calls| - 1].attempts
  }

  function RecordOf(t: Gateway.Tool, r: Gateway.Result, id: nat): Evidence.Call {
    Evidence.Call(id, t.name, r.status, r.output, r.attempts)
  }

  function Observation(cfg: Config, c: Evidence.Call, id: nat): Evidence.Item {
    Evidence.Item(id, cfg.run, c.tool, c.id, Evidence.HashOf(c.output), c.output)
  }

  // --------------------------------------------------------------------- collect

  /** The local variables of the collection loop. */
  datatype Collecting = Collecting(
    calls: seq<Evidence.Call>, evidence: seq<Evidence.Item>, status: Status,
    toolCalls: nat, stepCount: nat, nextId: nat)

  function Invoke(cfg: Config, k: Collecting, t: Gateway.Tool): Collecting {
    var r := Gateway.CallResult(cfg.maxToolCalls, k.toolCalls, t);
    var c := RecordOf(t, r, k.nextId);
    k.(calls := k.calls + [c],
       evidence := if r.status == Evidence.Succeeded
                   then k.evidence + [Observation(cfg, c, k.nextId + 1)] else k.evidence,
       toolCalls := k.toolCalls + r.attempts,
       nextId := k.nextId + 2)
  }

  /** One pass of the loop body; the flag says whether the loop goes on. */
  function CollectOne(cfg: Config, k: Collecting, a: Action): (Collecting, bool) {
    var k1 := k.(stepCount := k.stepCount + 1);
    match a
    case Proceed => (k1, false)
    case GiveUp(toHuman) => (k1.(status := if toHuman then NeedsHuman else InsufficientEvidence), false)
    case NoSelection => (k1.(status := InsufficientEvidence), false)
    case Foreign(t) => (Invoke(cfg, k1, t).(status := NeedsHuman, evidence := k1.evidence), false)
    case Use(t) =>
      var k2 := Invoke(cfg, k1, t);
      if |k2.calls| >= cfg.maxToolCalls then (k2.(status := NeedsHuman), false) else (k2, true)
  }

  function CollectLoop(cfg: Config, k: Collecting, actions: seq<Action>): Collecting
    decreases |actions|
  {
    if k.stepCount >= cfg.maxSteps then k
    else if actions == [] then CollectOne(cfg, k, Proceed).0
    else
      var (next, more) := CollectOne(cfg, k, actions[0]);
      if more then CollectLoop(cfg, next, actions[1..]) else next
  }

  /** What the model says next: the script's answer, or to proceed once it has no more. */
  function Answer(actions: seq<Action>, i: nat): Action {
    if i < |actions| then actions[i] else Proceed
  }

  lemma CollectUnfolds(cfg: Config, k: Collecting, actions: seq<Action>, i: nat)
    requires k.stepCount < cfg.maxSteps && i <= |actions|
    ensures var (next, more) := CollectOne(cfg, k, Answer(actions, i));
            if more then i < |actions| && CollectLoop(cfg, k, actions[i..]) == CollectLoop(cfg, next, actions[i + 1..])
            else CollectLoop(cfg, k, actions[i..]) == next
  {
    if i < |actions| {
      assert actions[i..][0] == actions[i] && actions[i..][1..] == actions[i + 1..];
    }
  }

  /** One pass of the loop body. */
  method CollectPass(cfg: Config, k: Collecting, action: Action) returns (next: Collecting, more: bool)
    ensures (next, more) == CollectOne(cfg, k, action)
  {
    next := k.(stepCount := k.stepCount + 1);
    match action {
      case Proceed =>
        return next, false;
      case GiveUp(toHuman) =>
        return next.(status := if toHuman then NeedsHuman else InsufficientEvidence), false;
      case NoSelection =>
        return next.(status := InsufficientEvidence), false;
      case Foreign(tool) =>
        var evidence := next.evidence;
        next := Invoke(cfg, next, tool);
        return next.(status := NeedsHuman, evidence := evidence), false;
      case Use(tool) =>
        next := Invoke(cfg, next, tool);
        if |next.calls| >= cfg.maxToolCalls {
          return next.(status := NeedsHuman), false;
        }
        return next, true;
    }
  }

  /** The loop as the node runs it; a model that has no more to say proceeds. */
  method CollectEvidence(cfg: Config, k: Collecting, actions: seq<Action>) returns (end: Collecting)
    ensures end == CollectLoop(cfg, k, actions)
  {
    end := k;
    var i, more := 0, true;
    while more && end.stepCount < cfg.maxSteps
      invariant i <= |actions|
      invariant (if more then CollectLoop(cfg, end, actions[i..]) else end) == CollectLoop(cfg, k, actions)
      decreases more, cfg.maxSteps - end.stepCount
    {
      CollectUnfolds(cfg, end, actions, i);
      end, more := CollectPass(cfg, end, Answer(actions, i));
      if more {
        i := i + 1;
      }
    }
  }

  function CollectNode(cfg: Config, m: Machine, input: Input): Machine {
    var s := m.state;
    var k := CollectLoop(cfg, Collecting(s.calls, s.evidence, s.status, m.toolCalls, m.stepCount, m.nextId),
                         input.actions);
    var status := if k.stepCount >= cfg.maxSteps && k.status == Running then NeedsHuman else k.status;
    var s1 := s.(calls := k.calls, evidence := k.evidence, status := status, steps := k.stepCount);
    var s2 := if k.evidence == [] then Insufficient(s1) else s1;
    m.(state := s2, toolCalls := k.toolCalls, stepCount := k.stepCount, nextId := k.nextId,
       taken := m.taken + k.stepCount - m.stepCount)
  }

  // ----------------------------------------------------------- form and verify

  function Ids(evidence: seq<Evidence.Item>): set<nat> {
    set i | 0 <= i < |evidence| :: evidence[i].id
  }

  function Cites(cited: seq<nat>, evidence: seq<Evidence.Item>): bool {
    cited != [] && (set i | 0 <= i < |cited| :: cited[i]) <= Ids(evidence)
  }

  function CitedSources(cited: seq<nat>, evidence: seq<Evidence.Item>): set<string> {
    set i | 0 <= i < |evidence| && evidence[i].id in cited :: evidence[i].source
  }

  /** Replacing the `result` dict drops the fields kept in it. */
  function Insufficient(s: State): State {
    s.(status := InsufficientEvidence, steps := 0, test := None, artifact := None)
  }

  function FormNode(cfg: Config, m: Machine, input: Input): Machine {
    var evidence := Evidence.ValidEvidence(m.state.evidence, m.state.calls, cfg.run);
    var s := m.state.(evidence := evidence);
    if |evidence| < 2 then m.(state := Insufficient(s))
    else if cfg.direct then
      if Cites(input.cited, evidence)
      then m.(state := s.(root := Some(RootCause(input.cited, false)), status := InvestigationComplete))
      else m.(state := s.(status := InsufficientEvidence))
    else if !Cites(input.cited, evidence) then m.(state := Insufficient(s))
    else m.(state := s.(hypotheses := s.hypotheses + [Open]))
  }

  function RejectedCount(hypotheses: seq<Hypothesis>): nat {
    if hypotheses == [] then 0
    else RejectedCount(hypotheses[..|hypotheses| - 1]) + (if hypotheses[|hypotheses| - 1] == Rejected then 1 else 0)
  }

  function Judged(hypotheses: seq<Hypothesis>, verdict: Hypothesis): seq<Hypothesis>
    requires hypotheses != []
  {
    hypotheses[..|hypotheses| - 1] + [verdict]
  }

  predicate Concluded(conclusion: seq<nat>, evidence: seq<Evidence.Item>, categoryOk: bool) {
    && Cites(conclusion, evidence)
    && evidence != [] && evidence[|evidence| - 1].id in conclusion
    && |CitedSources(conclusion, evidence)| >= 2
    && categoryOk
  }

  /** A verification whose tool call failed, or told nothing new, stops the run. */
  predicate NothingNew(s: State, r: Gateway.Result) {
    || r.status != Evidence.Succeeded
    || exists i :: 0 <= i < |s.evidence| && s.evidence[i].hash == Evidence.HashOf(r.output)
  }

  function VerifyNode(cfg: Config, m: Machine, input: Input): Machine {
    var s := m.state;
    if s.hypotheses == [] then m.(state := s.(status := InsufficientEvidence))
    else
      var r := Gateway.CallResult(cfg.maxToolCalls, m.toolCalls, input.tool);
      var c := RecordOf(input.tool, r, m.nextId);
      var s1 := s.(calls := s.calls + [c]);
      var m1 := m.(toolCalls := m.toolCalls + r.attempts, nextId := m.nextId + 2, state := s1);
      if NothingNew(s, r) then m1.(state := s1.(status := InsufficientEvidence))
      else
        var evidence := Evidence.ValidEvidence(s.evidence + [Observation(cfg, c, m.nextId + 1)], s1.calls, cfg.run);
        JudgeHypothesis(cfg, m1.(state := s1.(evidence := evidence)), input)
  }

  /** The rest of the node, once the verification has told something new. */
  function JudgeHypothesis(cfg: Config, m: Machine, input: Input): Machine
    requires m.state.hypotheses != []
  {
    var s := m.state.(hypotheses := Judged(m.state.hypotheses, if input.supported then Verified else Rejected));
    if !input.supported then
      // The result dict is replaced, and with it the persisted step count.
      var s1 := s.(steps := 0, test := None, artifact := None);
      if RejectedCount(s1.hypotheses) >= 3 || m.stepCount >= cfg.maxSteps
      then m.(state := s1.(status := InsufficientEvidence)) else m.(state := s1)
    else if !Concluded(input.conclusion, s.evidence, input.categoryOk)
    then m.(state := s.(status := InsufficientEvidence))
    else m.(state := s.(root := Some(RootCause(input.conclusion, true)),
                        status := if cfg.investigationOnly then InvestigationComplete else s.status))
  }

  // ---------------------------------------------------------- sandbox and patch

  function CreateSandboxNode(cfg: Config, m: Machine, input: Input): Machine {
    if m.state.root.None? then m.(state := m.state.(status := InsufficientEvidence))
    else
      match Created(cfg.repo, input.source, cfg.isProtected)
      case None => m.(state := m.state.(status := Failed), runtime := NO_RUNTIME)
      case Some(w) => m.(runtime := Runtime(Some(w), false))
  }

  /** Nodes end normally or raise, which the graph turns into a FAILED result. */
  datatype Outcome = Done(machine: Machine) | Raised(machine: Machine)

  function Last<T>(xs: seq<T>): T
    requires xs != []
  {
    xs[|xs| - 1]
  }

  /** `ensure_workspace`: the live workspace, or a new copy, with the last patch replayed if asked. */
  function EnsureWorkspace(cfg: Config, m: Machine, input: Input, replay: bool): Outcome {
    if m.runtime.workspace.Some? then Done(m)
    else
      var m1 := CreateSandboxNode(cfg, m, input);
      if m1.state.status != Running || m1.runtime.workspace.None? then Done(m1)
      else if !(replay && m.state.attempts != [] && Last(m.state.attempts).diff.Some?) then Done(m1)
      else
        var w, a := m1.runtime.workspace.value, Last(m.state.attempts);
        if a.base != Some(w.base) then Raised(m1)
        else
          match Apply(w.files, a.diff.value)
          case None => Raised(m1)
          case Some(files) => Done(m1.(runtime := m1.runtime.(workspace := Some(w.(files := files)))))
  }

  function GenerateNode(cfg: Config, m: Machine, input: Input): Outcome {
    var m0 := if m.state.attempts != [] then m.(runtime := NO_RUNTIME) else m;
    var ensured := EnsureWorkspace(cfg, m0, input, false);
    if ensured.Raised? then ensured else DraftPatch(cfg, ensured.machine, input)
  }

  /** The rest of the node, once there is a workspace or there is none. */
  function DraftPatch(cfg: Config, m: Machine, input: Input): Outcome {
    var attempts := m.state.attempts;
    if m.state.status != Running || m.runtime.workspace.None? then Done(m.(state := m.state.(status := Failed)))
    else
      var w := m.runtime.workspace.value;
      if attempts != [] && attempts[0].base != Some(w.base) then Raised(m)
      else
        var draft := Attempt(None, Drafted, None, None, 0);
        if |attempts| + 1 > cfg.maxPatches
        then Done(m.(state := m.state.(attempts := attempts + [draft], status := NeedsHuman)))
        else
          match Apply(w.files, input.patch)
          case None =>
            Done(m.(state := m.state.(attempts := attempts + [draft.(progress := ApplyFailed)], status := Failed)))
          case Some(files) =>
            var applied := Attempt(Some(input.patch), Applied, Some(w.base), None, 0);
            Done(m.(state := m.state.(attempts := attempts + [applied]),
                    runtime := m.runtime.(workspace := Some(w.(files := files)))))
  }

  function RunTestsNode(cfg: Config, m: Machine, input: Input): Outcome {
    var ensured := EnsureWorkspace(cfg, m, input, true);
    if ensured.Raised? then ensured
    else
      var m1 := ensured.machine;
      if m1.state.status != Running || m1.runtime.workspace.None? || input.exit.None?
      then Done(m1.(state := m1.state.(status := Failed)))
      else
        var w, code, attempts := m1.runtime.workspace.value, input.exit.value, m1.state.attempts;
        if attempts == [] || Last(attempts).diff.None? then Done(m1.(state := m1.state.(status := Failed)))
        else
          var tested := Last(attempts).(
            progress := if code == 0 then TestsPassed else TestsFailed,
            base := Some(w.base), test := Some(m.nextId), exitCode := code);
          Done(m1.(state := m1.state.(attempts := attempts[..|attempts| - 1] + [tested], test := Some(m.nextId)),
                   runtime := m1.runtime.(testOk := code == 0),
                   nextId := m.nextId + 1,
                   executions := m1.executions[m.nextId := Execution(Last(attempts).diff.value, w, code)]))
  }

  // ------------------------------------------------------------------- artifact

  predicate SameOutput(a: Artifact, run: RunId, hash: Digest, test: TestId) {
    a.run == run && a.hash == hash && a.test == test
  }

  ghost function ExistingArtifact(t: Tables, run: RunId, hash: Digest, test: TestId): Option<ArtifactId> {
    if exists id :: id in t.artifacts && SameOutput(t.artifacts[id], run, hash, test)
    then
      var id :| id in t.artifacts && SameOutput(t.artifacts[id], run, hash, test);
      Some(id)
    else None
  }

  /** `_persist_patch_artifact_once`, then WAITING_APPROVAL with the artifact named in the result. */
  ghost function PersistArtifact(cfg: Config, m: Machine, w: Workspace): Machine
    requires m.state.attempts != [] && Last(m.state.attempts).diff.Some? && m.state.test.Some?
  {
    var diff, test := Last(m.state.attempts).diff.value, m.state.test.value;
    var existing := ExistingArtifact(m.tables, cfg.run, HashPatch(diff), test);
    var id := if existing.Some? then existing.value else m.nextId;
    var row := Artifact(m.nextId, cfg.run, w.base, diff, HashPatch(diff), test, true);
    m.(tables := if existing.Some? then m.tables else m.tables.(artifacts := m.tables.artifacts[m.nextId := row]),
       nextId := m.nextId + 1,
       runtime := NO_RUNTIME,
       state := m.state.(status := WaitingApproval, artifact := Some(id)))
  }

  ghost function ExportNode(cfg: Config, m: Machine, input: Input): Outcome {
    var tested := if m.runtime.workspace.Some? then Done(m) else RunTestsNode(cfg, m, input);
    if tested.Raised? then tested
    else
      var m1 := tested.machine;
      if m.runtime.workspace.None? && (m1.state.status != Running || !m1.runtime.testOk)
      then Done(m1.(state := m1.state.(status := Failed)))
      else if m1.runtime.workspace.None? || m1.state.attempts == [] || Last(m1.state.attempts).diff.None?
           || m1.state.test.None?
      then Done(m1.(state := m1.state.(status := Failed)))
      else Done(PersistArtifact(cfg, m1, m1.runtime.workspace.value))
  }

  // ----------------------------------------------------------------- the graph

  /** `guarded` restores the budget counters from the checkpoint before the node runs. */
  function Restored(m: Machine): Machine {
    var spent := AttemptSum(m.state.calls);
    m.(toolCalls := if m.toolCalls >= spent then m.toolCalls else spent,
       stepCount := if m.stepCount >= m.state.steps then m.stepCount else m.state.steps)
  }

  ghost function NodeBody(cfg: Config, m: Machine, input: Input): Outcome {
    if input.raises then Raised(m)
    else
      match m.node
      case Plan => Done(m)
      case Collect => Done(CollectNode(cfg, m, input))
      case Form => Done(FormNode(cfg, m, input))
      case Verify => Done(VerifyNode(cfg, m, input))
      case CreateSandbox => Done(CreateSandboxNode(cfg, m, input))
      case Generate => GenerateNode(cfg, m, input)
      case RunTests => RunTestsNode(cfg, m, input)
      case Reflect => Done(m)
      case Export => ExportNode(cfg, m, input)
      case Wait => Done(m)
      case Human => Done(m.(state := m.state.(status := NeedsHuman)))
      case Stop => Done(m)
  }

  /** A node whose run is no longer RUNNING passes the state through. */
  ghost function RunNode(cfg: Config, m: Machine, input: Input): Outcome {
    if m.state.status != Running then Done(m) else NodeBody(cfg, Restored(m), input)
  }

  function RouteVerify(cfg: Config, m: Machine): Node {
    if m.state.status != Running then Stop
    else if m.state.root.Some? then CreateSandbox
    else if 1 <= RejectedCount(m.state.hypotheses) < 3 && m.stepCount < cfg.maxSteps then Collect
    else Stop
  }

  function RouteTests(cfg: Config, m: Machine): Node {
    if m.state.status != Running then Stop
    else if m.runtime.testOk then Export
    else if |m.state.attempts| < cfg.maxPatches then Reflect
    else Human
  }

  function Route(cfg: Config, node: Node, m: Machine): Node {
    var running := m.state.status == Running;
    match node
    case Plan => Collect
    case Collect => if running then Form else Stop
    case Form => if running then Verify else Stop
    case Verify => RouteVerify(cfg, m)
    case CreateSandbox => if running then Generate else Stop
    case Generate =>
      if running && m.state.attempts != [] && Last(m.state.attempts).progress == Applied then RunTests else Human
    case RunTests => RouteTests(cfg, m)
    case Reflect => Generate
    case Export => Wait
    case Wait => Stop
    case Human => Stop
    case Stop => Stop
  }

  /** The process is gone: the checkpoint and the database remain. */
  function Forgotten(m: Machine): Machine {
    m.(runtime := NO_RUNTIME, toolCalls := 0, stepCount := 0)
  }

  /** The checkpoint is that of a rejection, and no collection has completed since. */
  predicate AfterRejection(m: Machine) {
    m.node == Collect && RejectedCount(m.state.hypotheses) > 0
  }

  function TestRowOf(cfg: Config, a: Attempt): TestRow
    requires a.diff.Some? && a.base.Some?
  {
    TestRow(cfg.run, a.progress == TestsPassed, a.exitCode, HashPatch(a.diff.value), a.base.value)
  }

  /** The test rows of all tested attempts that are not in the table yet. */
  function SaveTests(cfg: Config, t: Tables, attempts: seq<Attempt>): Tables {
    if attempts == [] then t
    else SaveTest(cfg, SaveTests(cfg, t, attempts[..|attempts| - 1]), attempts[|attempts| - 1])
  }

  function SaveTest(cfg: Config, t: Tables, a: Attempt): Tables {
    if a.test.Some? && a.diff.Some? && a.base.Some? && a.test.value !in t.tests
    then t.(tests := t.tests[a.test.value := TestRowOf(cfg, a)]) else t
  }

  datatype Step =
    | Run(input: Input)          // a node runs and its checkpoint is written
    | Die(input: Input)          // the process dies after the node's effects, before the checkpoint
    | Restart                    // a later attempt starts over from the beginning
    | Persist(complete: bool)    // final persistence, with or without the last commit

  ghost function RunStep(cfg: Config, m: Machine, input: Input): Machine {
    match RunNode(cfg, m, input)
    case Raised(m1) => m1.(node := Stop, state := StartState().(status := Failed), executed := m.executed + 1)
    case Done(m1) => m1.(node := Route(cfg, m.node, m1), executed := m.executed + 1)
  }

  ghost function Advanced(cfg: Config, m: Machine, s: Step): Machine {
    if m.saved.Some? then m
    else
      match s
      case Run(input) => if m.node == Stop then m else RunStep(cfg, m, input)
      case Die(input) =>
        Forgotten(RunNode(cfg, m, input).machine.(
          node := m.node, state := m.state, taken := m.taken, forgot := m.forgot || AfterRejection(m)))
      case Restart => Forgotten(m.(node := Plan, state := StartState(), executed := 0, taken := 0, forgot := false))
      case Persist(complete) =>
        if m.node != Stop then m
        else
          var m1 := m.(tables := SaveTests(cfg, m.tables, m.state.attempts));
          if complete then m1.(saved := Some(Saved(m.state.status, m.state.artifact))) else m1
  }

  function Start(): Machine {
    Machine(Plan, StartState(), NO_RUNTIME, 0, 0, 0, map[], Tables(map[], map[]), None, 0, 0, false)
  }

  ghost function History(cfg: Config, m: Machine, steps: seq<Step>): Machine {
    if steps == [] then m
    else Advanced(cfg, History(cfg, m, steps[..|steps| - 1]), steps[|steps| - 1])
  }
}
